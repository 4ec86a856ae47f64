/** The field validators of the contact service (backend/server.js): an
    email-shape check and an international-dial-style phone check, each the
    exact language of the regular expression the service tests. */
module Validation {
  import opened Text

  // ---------------------------------------------------------------- email

  /** A run of the class `[^\s@]`: no whitespace and no '@'. */
  predicate NoSpaceOrAt(s: string) {
    forall k :: 0 <= k < |s| ==> !IsWhitespace(s[k]) && s[k] != '@'
  }

  /** `validateEmail`: the language of `^[^\s@]+@[^\s@]+\.[^\s@]+$`, that is
      a non-empty run, an '@' at index `at`, a non-empty run, a '.' at index
      `dot`, and a non-empty run, where no run holds whitespace or '@'. An
      accepted address is at least five characters long and holds no
      whitespace. */
  function ValidateEmail(email: string): (b: bool)
    ensures b ==> 5 <= |email|
    ensures b ==> NoWhitespace(email)
  {
    exists at, dot | 0 < at && at + 1 < dot < |email| - 1 ::
      && email[at] == '@' && email[dot] == '.'
      && NoSpaceOrAt(email[..at])
      && NoSpaceOrAt(email[at + 1..dot])
      && NoSpaceOrAt(email[dot + 1..])
  }

  /** The index of the first `c` in `s`, or `|s|` when there is none. */
  function IndexOf(s: string, c: char): (i: nat)
    ensures i <= |s|
    ensures i < |s| ==> s[i] == c
    ensures forall k :: 0 <= k < i ==> s[k] != c
  {
    if s == [] then 0 else if s[0] == c then 0 else 1 + IndexOf(s[1..], c)
  }

  /** The shape of an accepted address, said field by field: no whitespace
      anywhere, exactly one '@' (the first '@' exists and no other follows),
      a non-empty part before it, and a part after it holding a '.' that is
      neither its first nor its last character. */
  predicate EmailShape(email: string) {
    var at := IndexOf(email, '@');
    && NoWhitespace(email)
    && 0 < at < |email|
    && (forall k :: at < k < |email| ==> email[k] != '@')
    && exists dot :: at + 1 < dot < |email| - 1 && email[dot] == '.'
  }

  /** `validateEmail` accepts exactly the addresses of the shape above. */
  lemma ValidateEmailShape(email: string)
    ensures ValidateEmail(email) <==> EmailShape(email)
  {
  }

  /** Any whitespace character, anywhere, makes an address invalid. */
  lemma EmailRejectsWhitespace(email: string, k: nat)
    requires k < |email| && IsWhitespace(email[k])
    ensures !ValidateEmail(email)
  {
  }

  /** A second '@', anywhere, makes an address invalid. */
  lemma EmailRejectsSecondAt(email: string, i: nat, j: nat)
    requires i < j < |email| && email[i] == '@' && email[j] == '@'
    ensures !ValidateEmail(email)
  {
  }

  /** An address with no '@' at all is rejected. */
  lemma EmailRejectsExample()
    ensures !ValidateEmail("not-an-email")
  {
  }

  /** A short address with one-letter parts is accepted. */
  lemma EmailAcceptsExample()
    ensures ValidateEmail("a@b.co")
  {
    var ok := "a@b.co";
    assert ok[1] == '@' && ok[3] == '.';
    assert NoSpaceOrAt(ok[..1]) && NoSpaceOrAt(ok[2..3]) && NoSpaceOrAt(ok[4..]);
  }

  // ---------------------------------------------------------------- phone

  /** The characters of the class `[\s\-\(\)]` that the phone check strips
      before matching. None of them is a digit or '+', so the strip never
      removes a character the pattern could match. */
  function IsPhoneSeparator(c: char): (b: bool)
    ensures b ==> !IsDigit(c) && c != '+'
  {
    IsWhitespace(c) || c == '-' || c == '(' || c == ')'
  }

  /** `phone.replace(/[\s\-\(\)]/g, "")`: the result is no longer than the
      input and holds no separator. */
  function StripPhone(s: string): (r: string)
    ensures forall k :: 0 <= k < |r| ==> !IsPhoneSeparator(r[k])
    ensures |r| <= |s|
  {
    if s == [] then []
    else if IsPhoneSeparator(s[0]) then StripPhone(s[1..])
    else [s[0]] + StripPhone(s[1..])
  }

  /** Stripping works piece by piece: it distributes over concatenation, so
      the characters it keeps stay in their original order. */
  lemma {:induction false} StripPhoneAppend(a: string, b: string)
    ensures StripPhone(a + b) == StripPhone(a) + StripPhone(b)
  {
    if a != [] {
      assert (a + b)[1..] == a[1..] + b;
      StripPhoneAppend(a[1..], b);
    } else {
      assert a + b == b;
    }
  }

  /** Stripping keeps every character that is not a separator, as many times
      as it occurs, and drops every separator. */
  lemma {:induction false} StripPhoneCounts(s: string, c: char)
    ensures multiset(StripPhone(s))[c] == if IsPhoneSeparator(c) then 0 else multiset(s)[c]
  {
    if s != [] {
      StripPhoneCounts(s[1..], c);
      assert s == [s[0]] + s[1..];
    }
  }

  /** A string without separators is left as it is. */
  lemma {:induction false} StripPhoneUnchanged(s: string)
    requires forall k :: 0 <= k < |s| ==> !IsPhoneSeparator(s[k])
    ensures StripPhone(s) == s
  {
    if s != [] {
      StripPhoneUnchanged(s[1..]);
    }
  }

  /** Stripping twice is stripping once. */
  lemma StripPhoneIdempotent(s: string)
    ensures StripPhone(StripPhone(s)) == StripPhone(s)
  {
  }

  predicate IsDigit(c: char) {
    '0' <= c <= '9'
  }

  /** `[1-9][\d]{0,15}`: one to sixteen decimal digits, the first not zero. */
  function DialDigits(d: string): (b: bool)
    ensures b ==> d != [] && d[0] != '0' && forall k :: 0 <= k < |d| ==> IsDigit(d[k])
  {
    && 1 <= |d| <= 16
    && '1' <= d[0] <= '9'
    && forall k :: 1 <= k < |d| ==> IsDigit(d[k])
  }

  /** `validatePhone`: the stripped string matches `^[\+]?[1-9][\d]{0,15}$`,
      an optional '+' followed by the dial digits. What an accepted number
      strips to is one to seventeen characters long, all digits but for
      a '+' that can only come first. */
  function ValidatePhone(phone: string): (b: bool)
    ensures b ==> var t := StripPhone(phone);
                  1 <= |t| <= 17 && forall k :: 0 <= k < |t| ==> IsDigit(t[k]) || (k == 0 && t[k] == '+')
  {
    var t := StripPhone(phone);
    DialDigits(t) || (t != [] && t[0] == '+' && DialDigits(t[1..]))
  }

  /** Formatting does not matter: inserting a separator anywhere into a phone
      number leaves the verdict as it was. */
  lemma ValidatePhoneIgnoresSeparator(a: string, c: char, b: string)
    requires IsPhoneSeparator(c)
    ensures ValidatePhone(a + [c] + b) == ValidatePhone(a + b)
  {
    assert [c][1..] == [];
    assert StripPhone([c]) == [];
    StripPhoneAppend(a + [c], b);
    StripPhoneAppend(a, [c]);
    StripPhoneAppend(a, b);
    assert StripPhone(a + [c] + b) == StripPhone(a + b);
  }

  /** Validating the stripped string gives the same verdict. */
  lemma ValidatePhoneStripped(phone: string)
    ensures ValidatePhone(StripPhone(phone)) == ValidatePhone(phone)
  {
    StripPhoneIdempotent(phone);
  }

  /** An accepted phone number is made of digits, separators and '+':
      every character that is not a separator is kept by the strip, where
      only digits and '+' can occur. */
  lemma ValidatePhoneAlphabet(phone: string, k: nat)
    requires ValidatePhone(phone) && k < |phone|
    ensures IsDigit(phone[k]) || phone[k] == '+' || IsPhoneSeparator(phone[k])
  {
    var c := phone[k];
    if !IsPhoneSeparator(c) {
      StripPhoneCounts(phone, c);
      assert c in multiset(phone);
      assert c in StripPhone(phone);
    }
  }

  /** A string the strip empties is made of separators only. */
  lemma StripPhoneEmpty(s: string)
    requires StripPhone(s) == []
    ensures forall k :: 0 <= k < |s| ==> IsPhoneSeparator(s[k])
  {
  }

  /** A '+' in an accepted phone number comes before every digit: whatever
      precedes it is formatting only. */
  lemma ValidatePhonePlusLeads(phone: string, k: nat)
    requires ValidatePhone(phone) && k < |phone| && phone[k] == '+'
    ensures forall i :: 0 <= i < k ==> IsPhoneSeparator(phone[i])
  {
    var a, b := phone[..k], phone[k..];
    assert phone == a + b;
    StripPhoneAppend(a, b);
    assert b[0] == '+' && !IsPhoneSeparator(b[0]);
    var t := StripPhone(phone);
    assert t == StripPhone(a) + ([b[0]] + StripPhone(b[1..]));
    assert t[|StripPhone(a)|] == '+';
    StripPhoneEmpty(a);
    forall i | 0 <= i < k
      ensures IsPhoneSeparator(phone[i])
    {
      assert phone[i] == a[i];
    }
  }

  /** A leading zero is refused. */
  lemma PhoneRejectsLeadingZero()
    ensures !ValidatePhone("0123")
  {
  }

  /** A plain run of digits is accepted. */
  lemma PhoneAcceptsDigits()
    ensures ValidatePhone("12345")
  {
  }

  /** Each separator of the formatted example below is stripped. */
  lemma StripSeparators()
    ensures StripPhone(" (") == [] && StripPhone(") ") == [] && StripPhone("-") == []
  {
  }

  /** Stripping `s + t` where `t` has no separators appends `t` unchanged;
      where `t` is one separator, appends nothing. */
  lemma StripPhoneStep(s: string, t: string)
    requires forall k :: 0 <= k < |t| ==> !IsPhoneSeparator(t[k])
    ensures StripPhone(s + t) == StripPhone(s) + t
  {
    StripPhoneAppend(s, t);
    StripPhoneUnchanged(t);
  }

  /** How the formatted example below strips, piece by piece. */
  lemma StripFormattedExample()
    ensures StripPhone("+595" + " (" + "21" + ") " + "123" + "-" + "4567") == "+595211234567"
  {
    StripSeparators();
    var p := "+595";
    assert StripPhone(p) == "+595" by { StripPhoneUnchanged(p); }
    assert StripPhone(p + " (") == "+595" by { StripPhoneAppend(p, " ("); }
    p := p + " (";
    assert StripPhone(p + "21") == "+59521" by { StripPhoneStep(p, "21"); }
    p := p + "21";
    assert StripPhone(p + ") ") == "+59521" by { StripPhoneAppend(p, ") "); }
    p := p + ") ";
    assert StripPhone(p + "123") == "+59521123" by { StripPhoneStep(p, "123"); }
    p := p + "123";
    assert StripPhone(p + "-") == "+59521123" by { StripPhoneAppend(p, "-"); }
    p := p + "-";
    assert StripPhone(p + "4567") == "+595211234567" by { StripPhoneStep(p, "4567"); }
  }

  /** A formatted international number is accepted. */
  lemma PhoneAcceptsFormatted()
    ensures ValidatePhone("+595 (21) 123-4567")
  {
    var pieces := "+595" + " (" + "21" + ") " + "123" + "-" + "4567";
    assert ValidatePhone(pieces) by { StripFormattedExample(); }
    assert pieces == "+595 (21) 123-4567";
  }
}
