/** `validateEmail` and `validatePhone` of the contact-email function. Each
    regular expression is given its matching semantics directly: a match is a
    split of the string into the pieces the pattern names. */
module Validators {
  import opened Text

  const MaxEmailLength := 255
  const MaxPhoneLength := 20

  /** `[^\s@]`: any character but whitespace and `@`. */
  predicate EmailAtom(c: char)
  {
    !IsWhitespace(c) && c != '@'
  }

  /** `[^\s@]+` matching the whole of `s`. */
  predicate AtomRun(s: string)
  {
    |s| > 0 && forall i :: 0 <= i < |s| ==> EmailAtom(s[i])
  }

  /** `s` splits as run `@` run `.` run, with the `@` at `at` and the escaped
      dot at `dot`: one way for the pattern to match. */
  predicate EmailSplit(s: string, at: int, dot: int)
  {
    0 < at && at + 1 < dot && dot + 1 < |s|
    && s[at] == '@' && s[dot] == '.'
    && AtomRun(s[..at]) && AtomRun(s[at + 1..dot]) && AtomRun(s[dot + 1..])
  }

  /** `/^[^\s@]+@[^\s@]+\.[^\s@]+$/.test(s)`: some split matches. */
  predicate EmailPattern(s: string)
  {
    exists at, dot | 0 < at < dot < |s| :: EmailSplit(s, at, dot)
  }

  predicate ValidateEmail(email: string)
  {
    EmailPattern(email) && |email| <= MaxEmailLength
  }

  /** The shape an accepted address has, stated without the regular expression:
      exactly one `@`, with something before it, a dot strictly inside the part
      after it, no whitespace anywhere, and at most 255 characters. */
  predicate EmailShape(e: string)
  {
    |e| <= MaxEmailLength && NoWhitespace(e)
    && exists at | 0 < at < |e| ::
         e[at] == '@'
         && (forall i :: 0 <= i < |e| && i != at ==> e[i] != '@')
         && (exists dot | at + 1 < dot < |e| - 1 :: e[dot] == '.')
  }

  lemma EmailPatternGivesShape(e: string, at: int, dot: int)
    requires EmailSplit(e, at, dot)
    ensures NoWhitespace(e)
    ensures forall i :: 0 <= i < |e| && i != at ==> e[i] != '@'
  {
    forall i | 0 <= i < |e| && i != at
      ensures !IsWhitespace(e[i]) && e[i] != '@'
    {
      if i < at { assert e[i] == e[..at][i]; }
      else if i < dot { assert e[i] == e[at + 1..dot][i - at - 1]; }
      else if i > dot { assert e[i] == e[dot + 1..][i - dot - 1]; }
    }
  }

  /** An address passes `validateEmail` exactly when it has the shape above. */
  lemma ValidateEmailIffShape(e: string)
    ensures ValidateEmail(e) <==> EmailShape(e)
  {
    if ValidateEmail(e) {
      var at, dot :| EmailSplit(e, at, dot);
      EmailPatternGivesShape(e, at, dot);
      assert at + 1 < dot < |e| - 1 && e[dot] == '.';
    }
    if EmailShape(e) {
      var at :| 0 < at < |e| && e[at] == '@'
        && (forall i :: 0 <= i < |e| && i != at ==> e[i] != '@')
        && (exists dot | at + 1 < dot < |e| - 1 :: e[dot] == '.');
      var dot :| at + 1 < dot < |e| - 1 && e[dot] == '.';
      assert AtomRun(e[..at]) by {
        forall i | 0 <= i < at ensures EmailAtom(e[..at][i]) { assert e[..at][i] == e[i]; }
      }
      var domain, tld := e[at + 1..dot], e[dot + 1..];
      assert AtomRun(domain) by {
        forall i | 0 <= i < |domain| ensures EmailAtom(domain[i]) { assert domain[i] == e[at + 1 + i]; }
      }
      assert AtomRun(tld) by {
        forall i | 0 <= i < |tld| ensures EmailAtom(tld[i]) { assert tld[i] == e[dot + 1 + i]; }
      }
      assert EmailSplit(e, at, dot);
    }
  }

  /** An accepted address is left unchanged by `trim`. */
  lemma ValidEmailIsTrimmed(e: string)
    requires ValidateEmail(e)
    ensures Trim(e) == e
  {
    ValidateEmailIffShape(e);
    TrimOfNoWhitespace(e);
  }

  /** `[\d\s\-+()]`: an ASCII digit, any whitespace, `-`, `+`, `(` or `)`. */
  predicate PhoneChar(c: char)
  {
    ('0' <= c <= '9') || IsWhitespace(c) || c == '-' || c == '+' || c == '(' || c == ')'
  }

  /** `validatePhone`: the empty string is accepted (the field is optional);
      otherwise `^[\d\s\-+()]+$` must match and the length be at most 20. */
  predicate ValidatePhone(phone: string)
  {
    if phone == [] then true
    else (forall i :: 0 <= i < |phone| ==> PhoneChar(phone[i])) && |phone| <= MaxPhoneLength
  }

  /** An accepted non-empty number has at most 20 characters, all of them
      digits, whitespace or `- + ( )`. */
  lemma ValidPhoneBounded(p: string)
    requires p != [] && ValidatePhone(p)
    ensures |p| <= MaxPhoneLength
    ensures forall i :: 0 <= i < |p| ==> PhoneChar(p[i])
  {
  }

  /** `^[\d\s\-+()]+$` as a matcher that consumes one character per step:
      one class character, then either the end or another match. */
  predicate PhoneMatch(s: string)
    decreases |s|
  {
    |s| > 0 && PhoneChar(s[0]) && (|s| == 1 || PhoneMatch(s[1..]))
  }

  /** The matcher accepts exactly the non-empty runs of class characters. */
  lemma {:induction false} PhoneMatchIff(s: string)
    ensures PhoneMatch(s) <==> |s| > 0 && forall i :: 0 <= i < |s| ==> PhoneChar(s[i])
    decreases |s|
  {
    if |s| > 1 {
      PhoneMatchIff(s[1..]);
      if forall i :: 0 <= i < |s| ==> PhoneChar(s[i]) {
        forall i | 0 <= i < |s[1..]| ensures PhoneChar(s[1..][i]) {
          assert s[1..][i] == s[i + 1];
        }
      }
      if PhoneMatch(s) {
        forall i | 0 <= i < |s| ensures PhoneChar(s[i]) {
          if i > 0 { assert s[i] == s[1..][i - 1]; }
        }
      }
    }
  }

  /** `validatePhone` agrees with the matcher: the empty number passes, and
      any other passes exactly when the pattern matches and it has at most
      20 characters. */
  lemma ValidatePhoneIffMatch(p: string)
    ensures ValidatePhone(p) <==> p == [] || (PhoneMatch(p) && |p| <= MaxPhoneLength)
  {
    PhoneMatchIff(p);
  }

  lemma PhoneExamples()
    ensures ValidatePhone("+1 (555) 123-4567")
    ensures !ValidatePhone("555-CALL")
    ensures !ValidatePhone("123456789012345678901")
  {
    PhoneWithLetterRejected("555-CALL", 4);
  }

  /** A letter anywhere in the number is refused. */
  lemma PhoneWithLetterRejected(p: string, i: int)
    requires 0 <= i < |p| && (('a' <= p[i] <= 'z') || ('A' <= p[i] <= 'Z'))
    ensures !ValidatePhone(p)
  {
    assert !PhoneChar(p[i]);
  }

  /** An address without an `@` is refused. */
  lemma EmailWithoutAtRejected(e: string)
    requires forall i :: 0 <= i < |e| ==> e[i] != '@'
    ensures !ValidateEmail(e)
  {
    ValidateEmailIffShape(e);
  }

  /** An address whose part after its first `@` has no inner `.` is refused. */
  lemma EmailWithoutDotRejected(e: string, at: int)
    requires 0 <= at < |e| && e[at] == '@'
    requires forall i :: at < i < |e| - 1 ==> e[i] != '.'
    ensures !ValidateEmail(e)
  {
    ValidateEmailIffShape(e);
    forall a | 0 < a < |e| && e[a] == '@' && (forall i :: 0 <= i < |e| && i != a ==> e[i] != '@')
      ensures !exists dot | a + 1 < dot < |e| - 1 :: e[dot] == '.'
    {
      assert a == at;
    }
  }

  lemma EmailExamples()
    ensures ValidateEmail("a@b.co")
    ensures !ValidateEmail("a b@c.de")
  {
    var e := "a@b.co";
    assert e[1] == '@' && e[3] == '.';
    assert AtomRun(e[..1]) && AtomRun(e[2..3]) && AtomRun(e[4..]);
    assert EmailSplit(e, 1, 3);
    assert !EmailAtom("a b@c.de"[1]);
    ValidateEmailIffShape("a b@c.de");
  }
}
