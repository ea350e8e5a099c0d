// The shared form configuration: the option tables of the budget, timeline
// and service drop-downs, the value-to-label lookups with identity
// fallback, and the blank form.

module FormConfig {

  /** `{ value, label }`. */
  datatype Choice = Choice(value: string, labelText: string)

  const BudgetOptions: seq<Choice> := [
    Choice("under-5k", "< $5k"),
    Choice("5k-10k", "$5k - $10k"),
    Choice("10k-25k", "$10k - $25k"),
    Choice("over-25k", "$25k+")
  ]

  /** The two ranges are written with an en dash (U+2013). */
  const TimelineOptions: seq<Choice> := [
    Choice("immediately", "Immediately"),
    Choice("1-3-months", "1\U{2013}3 months"),
    Choice("3-6-months", "3\U{2013}6 months"),
    Choice("researching", "Just researching")
  ]

  const ServiceOptions: seq<Choice> := [
    Choice("ai-automation", "AI Automation"),
    Choice("agentic-ai", "Agentic AI Systems"),
    Choice("chatbots", "Chatbots"),
    Choice("consulting", "Consulting"),
    Choice("custom-ai", "Custom AI Development")
  ]

  // ---------------------------------------------------------------------
  // The lookup `options.find(o => o.value === value)?.label || value`

  /** `find`: the first option whose value matches, if any. */
  function Find(options: seq<Choice>, value: string): (r: int)
    ensures -1 <= r < |options|
    ensures r >= 0 ==> options[r].value == value && forall j :: 0 <= j < r ==> options[j].value != value
    ensures r < 0 ==> forall j :: 0 <= j < |options| ==> options[j].value != value
  {
    if options == [] then -1
    else if options[0].value == value then 0
    else
      var r := Find(options[1..], value);
      if r < 0 then -1 else r + 1
  }

  /** The found label, or the value itself when nothing matches or the
      label is empty (an empty label is falsy). */
  function LabelOf(options: seq<Choice>, value: string): string
  {
    var r := Find(options, value);
    if r >= 0 && options[r].labelText != [] then options[r].labelText else value
  }

  function GetBudgetLabel(value: string): string
  {
    LabelOf(BudgetOptions, value)
  }

  function GetTimelineLabel(value: string): string
  {
    LabelOf(TimelineOptions, value)
  }

  function GetServiceLabel(value: string): string
  {
    LabelOf(ServiceOptions, value)
  }

  // ---------------------------------------------------------------------
  // Properties of a table that make the lookup well behaved

  predicate ValuesDistinct(options: seq<Choice>)
  {
    forall i, j :: 0 <= i < j < |options| ==> options[i].value != options[j].value
  }

  predicate IsValue(options: seq<Choice>, s: string)
  {
    exists i :: 0 <= i < |options| && options[i].value == s
  }

  /** No label is also a value of the same table. */
  predicate LabelsAreNotValues(options: seq<Choice>)
  {
    forall i, j :: 0 <= i < |options| && 0 <= j < |options| ==> options[i].labelText != options[j].value
  }

  predicate LabelsNonEmpty(options: seq<Choice>)
  {
    forall i :: 0 <= i < |options| ==> options[i].labelText != []
  }

  predicate WellFormed(options: seq<Choice>)
  {
    ValuesDistinct(options) && LabelsAreNotValues(options) && LabelsNonEmpty(options)
  }

  /** With distinct values, a listed value finds its own label. */
  lemma LookupListed(options: seq<Choice>, i: int)
    requires ValuesDistinct(options) && LabelsNonEmpty(options)
    requires 0 <= i < |options|
    ensures LabelOf(options, options[i].value) == options[i].labelText
  {
  }

  /** A value that is not in the table comes back unchanged. */
  lemma LookupUnlisted(options: seq<Choice>, value: string)
    requires !IsValue(options, value)
    ensures LabelOf(options, value) == value
  {
  }

  /** Looking up a looked-up label changes nothing more. */
  lemma LookupIdempotent(options: seq<Choice>, value: string)
    requires WellFormed(options)
    ensures LabelOf(options, LabelOf(options, value)) == LabelOf(options, value)
  {
    var r := Find(options, value);
    if r >= 0 {
      LookupListed(options, r);
      assert !IsValue(options, options[r].labelText);
      LookupUnlisted(options, options[r].labelText);
    } else {
      LookupUnlisted(options, value);
    }
  }

  /** The lookup maps every value to its label and leaves every other
      string alone; which string is returned decides which case applied. */
  lemma LookupIff(options: seq<Choice>, value: string)
    requires WellFormed(options)
    ensures LabelOf(options, value) == value <==> !IsValue(options, value)
    ensures IsValue(options, value) ==> exists i :: 0 <= i < |options| && options[i].value == value && LabelOf(options, value) == options[i].labelText
  {
    if IsValue(options, value) {
      var i :| 0 <= i < |options| && options[i].value == value;
      LookupListed(options, i);
      assert !IsValue(options, options[i].labelText);
    }
  }

  // ---------------------------------------------------------------------
  // The three tables are well formed

  // Each table is spelled out once more by its strings, so that the
  // solver sees their characters; a value and a label are told apart by
  // their first two characters.

  lemma BudgetValuesDistinct()
    ensures ValuesDistinct(BudgetOptions) && LabelsNonEmpty(BudgetOptions)
  {
    var v0, v1, v2, v3 := "under-5k", "5k-10k", "10k-25k", "over-25k";
    var l0, l1, l2, l3 := "< $5k", "$5k - $10k", "$10k - $25k", "$25k+";
    assert BudgetOptions == [Choice(v0, l0), Choice(v1, l1), Choice(v2, l2), Choice(v3, l3)];
    assert v0[0] == 'u' && v1[0] == '5' && v2[0] == '1' && v3[0] == 'o';
  }

  lemma BudgetLabelsApart()
    ensures LabelsAreNotValues(BudgetOptions)
  {
    var v0, v1, v2, v3 := "under-5k", "5k-10k", "10k-25k", "over-25k";
    var l0, l1, l2, l3 := "< $5k", "$5k - $10k", "$10k - $25k", "$25k+";
    assert BudgetOptions == [Choice(v0, l0), Choice(v1, l1), Choice(v2, l2), Choice(v3, l3)];
    assert v0[0] == 'u' && v1[0] == '5' && v2[0] == '1' && v3[0] == 'o';
    assert l0[0] == '<' && l1[0] == '$' && l2[0] == '$' && l3[0] == '$';
  }

  lemma TimelineValuesDistinct()
    ensures ValuesDistinct(TimelineOptions) && LabelsNonEmpty(TimelineOptions)
  {
    var v0, v1, v2, v3 := "immediately", "1-3-months", "3-6-months", "researching";
    var l0, l1, l2, l3 := "Immediately", "1\U{2013}3 months", "3\U{2013}6 months", "Just researching";
    assert TimelineOptions == [Choice(v0, l0), Choice(v1, l1), Choice(v2, l2), Choice(v3, l3)];
    assert v0[0] == 'i' && v1[0] == '1' && v2[0] == '3' && v3[0] == 'r';
  }

  lemma TimelineLabelsApart()
    ensures LabelsAreNotValues(TimelineOptions)
  {
    var v0, v1, v2, v3 := "immediately", "1-3-months", "3-6-months", "researching";
    var l0, l1, l2, l3 := "Immediately", "1\U{2013}3 months", "3\U{2013}6 months", "Just researching";
    assert TimelineOptions == [Choice(v0, l0), Choice(v1, l1), Choice(v2, l2), Choice(v3, l3)];
    assert v0[1] == 'm' && v1[1] == '-' && v2[1] == '-' && v3[1] == 'e';
    assert l0[1] == 'm' && l1[1] == '\U{2013}' && l2[1] == '\U{2013}' && l3[1] == 'u';
    assert v0[0] == 'i' && l0[0] == 'I';
  }

  lemma ServiceValuesDistinct()
    ensures ValuesDistinct(ServiceOptions) && LabelsNonEmpty(ServiceOptions)
  {
    var v0, v1, v2, v3, v4 := "ai-automation", "agentic-ai", "chatbots", "consulting", "custom-ai";
    var l0, l1, l2, l3, l4 := "AI Automation", "Agentic AI Systems", "Chatbots", "Consulting", "Custom AI Development";
    assert ServiceOptions == [Choice(v0, l0), Choice(v1, l1), Choice(v2, l2), Choice(v3, l3), Choice(v4, l4)];
    assert v0[1] == 'i' && v1[1] == 'g' && v2[1] == 'h' && v3[1] == 'o' && v4[1] == 'u';
  }

  lemma ServiceLabelsApart()
    ensures LabelsAreNotValues(ServiceOptions)
  {
    var v0, v1, v2, v3, v4 := "ai-automation", "agentic-ai", "chatbots", "consulting", "custom-ai";
    var l0, l1, l2, l3, l4 := "AI Automation", "Agentic AI Systems", "Chatbots", "Consulting", "Custom AI Development";
    assert ServiceOptions == [Choice(v0, l0), Choice(v1, l1), Choice(v2, l2), Choice(v3, l3), Choice(v4, l4)];
    assert v0[0] == 'a' && v1[0] == 'a' && v2[0] == 'c' && v3[0] == 'c' && v4[0] == 'c';
    assert l0[0] == 'A' && l1[0] == 'A' && l2[0] == 'C' && l3[0] == 'C' && l4[0] == 'C';
  }

  // ---------------------------------------------------------------------
  // The three lookups

  /** Each listed budget value gets its own label; anything else, the empty
      string included, comes back unchanged; a second lookup changes
      nothing. */
  lemma BudgetLabels(value: string)
    ensures forall i :: 0 <= i < |BudgetOptions| ==> GetBudgetLabel(BudgetOptions[i].value) == BudgetOptions[i].labelText
    ensures GetBudgetLabel(value) == value <==> !IsValue(BudgetOptions, value)
    ensures GetBudgetLabel(GetBudgetLabel(value)) == GetBudgetLabel(value)
    ensures GetBudgetLabel("under-5k") == "< $5k" && GetBudgetLabel("") == ""
  {
    BudgetValuesDistinct();
    BudgetLabelsApart();
    forall i | 0 <= i < |BudgetOptions| ensures GetBudgetLabel(BudgetOptions[i].value) == BudgetOptions[i].labelText {
      LookupListed(BudgetOptions, i);
    }
    LookupIff(BudgetOptions, value);
    LookupIdempotent(BudgetOptions, value);
    LookupListed(BudgetOptions, 0);
    LookupUnlisted(BudgetOptions, "");
  }

  lemma TimelineLabels(value: string)
    ensures forall i :: 0 <= i < |TimelineOptions| ==> GetTimelineLabel(TimelineOptions[i].value) == TimelineOptions[i].labelText
    ensures GetTimelineLabel(value) == value <==> !IsValue(TimelineOptions, value)
    ensures GetTimelineLabel(GetTimelineLabel(value)) == GetTimelineLabel(value)
    ensures GetTimelineLabel("") == ""
  {
    TimelineValuesDistinct();
    TimelineLabelsApart();
    forall i | 0 <= i < |TimelineOptions| ensures GetTimelineLabel(TimelineOptions[i].value) == TimelineOptions[i].labelText {
      LookupListed(TimelineOptions, i);
    }
    LookupIff(TimelineOptions, value);
    LookupIdempotent(TimelineOptions, value);
    LookupUnlisted(TimelineOptions, "");
  }

  lemma ServiceLabels(value: string)
    ensures forall i :: 0 <= i < |ServiceOptions| ==> GetServiceLabel(ServiceOptions[i].value) == ServiceOptions[i].labelText
    ensures GetServiceLabel(value) == value <==> !IsValue(ServiceOptions, value)
    ensures GetServiceLabel(GetServiceLabel(value)) == GetServiceLabel(value)
    ensures GetServiceLabel("") == ""
  {
    ServiceValuesDistinct();
    ServiceLabelsApart();
    forall i | 0 <= i < |ServiceOptions| ensures GetServiceLabel(ServiceOptions[i].value) == ServiceOptions[i].labelText {
      LookupListed(ServiceOptions, i);
    }
    LookupIff(ServiceOptions, value);
    LookupIdempotent(ServiceOptions, value);
    LookupUnlisted(ServiceOptions, "");
  }

  // ---------------------------------------------------------------------
  // The blank form

  datatype ContactFormData = ContactFormData(
    name: string, email: string, phone: string, company: string,
    budget: string, timeline: string, serviceInterest: string,
    problemStatement: string, message: string)

  predicate Blank(d: ContactFormData)
  {
    d.name == [] && d.email == [] && d.phone == [] && d.company == []
    && d.budget == [] && d.timeline == [] && d.serviceInterest == []
    && d.problemStatement == [] && d.message == []
  }

  /** `initialFormData`: every field empty, so every lookup on it returns
      the empty string. */
  function InitialFormData(): (d: ContactFormData)
    ensures Blank(d)
    ensures GetBudgetLabel(d.budget) == [] && GetTimelineLabel(d.timeline) == [] && GetServiceLabel(d.serviceInterest) == []
  {
    BudgetLabels([]);
    TimelineLabels([]);
    ServiceLabels([]);
    ContactFormData("", "", "", "", "", "", "", "", "")
  }
}
