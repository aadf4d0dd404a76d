/**
 The email check of the client's second wizard step: the pattern
 `^[^\s@]+@[^\s@]+\.[^\s@]+$`, written as a recursive matcher over the
 characters of the address, together with a declarative description of the
 strings it accepts and a proof that the two agree. The pattern has no `u`
 flag, so JavaScript matches it over UTF-16 code units; both halves of a
 surrogate pair are in `[^\s@]`, so matching over code points, as here,
 accepts the same strings.
 */
module EmailShape {

  /** JavaScript's `\s`: the ECMAScript WhiteSpace and LineTerminator code points. */
  predicate IsSpace(c: char) {
    || c == '\t' || c == '\n' || c == '\U{000B}' || c == '\U{000C}' || c == '\r'
    || c == ' ' || c == '\U{00A0}' || c == '\U{1680}'
    || ('\U{2000}' <= c <= '\U{200A}')
    || c == '\U{2028}' || c == '\U{2029}' || c == '\U{202F}' || c == '\U{205F}'
    || c == '\U{3000}' || c == '\U{FEFF}'
  }

  /** A character of the class `[^\s@]`. */
  predicate Plain(c: char) {
    !IsSpace(c) && c != '@'
  }

  /** Every character of `s` is of the class `[^\s@]`. */
  predicate AllPlain(s: string) {
    forall k :: 0 <= k < |s| ==> Plain(s[k])
  }

  /** How much of the domain part `[^\s@]+\.[^\s@]+` has been read so far. */
  datatype DomainState =
    | Nothing   // no character yet
    | Label     // at least one character, no dot that could close the first run
    | AfterDot  // a dot after the first run; one more character is needed
    | Complete  // the whole domain pattern has been matched; more plain characters extend it

  function Advance(st: DomainState, c: char): DomainState {
    match st
    case Nothing => Label
    case Label => if c == '.' then AfterDot else Label
    case AfterDot => Complete
    case Complete => Complete
  }

  /** Matches the rest of the domain part, starting in state `st`, up to the end of the input. */
  predicate MatchDomain(st: DomainState, s: string)
    decreases |s|
  {
    if |s| == 0 then st == Complete
    else if !Plain(s[0]) then false
    else MatchDomain(Advance(st, s[0]), s[1..])
  }

  /** Matches `[^\s@]+@` followed by the domain part; `seen` records that the local run is non-empty. */
  predicate MatchLocal(s: string, seen: bool)
    decreases |s|
  {
    if |s| == 0 then false
    else if s[0] == '@' then seen && MatchDomain(Nothing, s[1..])
    else if IsSpace(s[0]) then false
    else MatchLocal(s[1..], true)
  }

  /** `emailRegex.test(email)` of `validateStep2`. */
  predicate IsValidEmail(s: string) {
    MatchLocal(s, false)
  }

  // ---------------------------------------------------------------------
  // The declarative description of the accepted strings

  /** `s` has a '.' at an index `j` with `lo <= j` and at least one character after it. */
  predicate DotFrom(s: string, lo: nat) {
    exists j :: lo <= j < |s| - 1 && s[j] == '.'
  }

  /**
   The accepted addresses: no whitespace anywhere, exactly one '@', at least one
   character before it, and after it a '.' with at least one character on each side.
   */
  ghost predicate EmailShape(s: string) {
    exists i :: 0 < i < |s| && s[i] == '@'
      && (forall k :: 0 <= k < |s| ==> !IsSpace(s[k]))
      && (forall k :: 0 <= k < |s| && s[k] == '@' ==> k == i)
      && DotFrom(s, i + 2)
  }

  /** What the domain matcher accepts from each state. */
  ghost predicate DomainSpec(st: DomainState, s: string) {
    match st
    case Complete => AllPlain(s)
    case AfterDot => |s| > 0 && AllPlain(s)
    case Label => AllPlain(s) && DotFrom(s, 0)
    case Nothing => AllPlain(s) && DotFrom(s, 1)
  }

  /** What the local matcher accepts: a plain run, an '@', then a domain part. */
  ghost predicate LocalSpec(s: string, seen: bool) {
    exists i :: 0 <= i < |s| && s[i] == '@' && (seen || i > 0)
      && AllPlain(s[..i]) && DomainSpec(Nothing, s[i + 1..])
  }

  // ---------------------------------------------------------------------
  // Proof that the matcher accepts exactly the described strings

  lemma AllPlainCons(s: string)
    requires |s| > 0
    ensures AllPlain(s) <==> Plain(s[0]) && AllPlain(s[1..])
  {
    if Plain(s[0]) && AllPlain(s[1..]) {
      forall k | 0 <= k < |s| ensures Plain(s[k]) {
        if k > 0 { assert s[k] == s[1..][k - 1]; }
      }
    }
  }

  lemma DotFromCons(s: string, lo: nat)
    requires |s| > 0 && lo >= 1
    ensures DotFrom(s, lo) <==> DotFrom(s[1..], lo - 1)
  {
    var t := s[1..];
    if DotFrom(s, lo) {
      var j :| lo <= j < |s| - 1 && s[j] == '.';
      assert t[j - 1] == '.';
    }
    if DotFrom(t, lo - 1) {
      var j :| lo - 1 <= j < |t| - 1 && t[j] == '.';
      assert s[j + 1] == '.';
    }
  }

  lemma DotFromZero(s: string)
    requires |s| > 0
    ensures DotFrom(s, 0) <==> (s[0] == '.' && |s| >= 2) || DotFrom(s, 1)
  {
    if DotFrom(s, 0) {
      var j :| 0 <= j < |s| - 1 && s[j] == '.';
      if j >= 1 { assert DotFrom(s, 1); }
    }
  }

  lemma {:induction false} MatchDomainCorrect(st: DomainState, s: string)
    ensures MatchDomain(st, s) <==> DomainSpec(st, s)
    decreases |s|
  {
    if |s| == 0 {
    } else {
      var c, t := s[0], s[1..];
      AllPlainCons(s);
      if Plain(c) {
        MatchDomainCorrect(Advance(st, c), t);
        match st
        case Complete =>
        case AfterDot =>
        case Label =>
          DotFromZero(s);
          DotFromCons(s, 1);
          if c == '.' {
            if |t| > 0 { assert DotFrom(s, 0) by { assert s[0] == '.'; } }
          }
        case Nothing =>
          DotFromCons(s, 1);
      }
    }
  }

  lemma LocalSpecAt(s: string, seen: bool)
    requires |s| > 0 && s[0] == '@'
    ensures LocalSpec(s, seen) <==> seen && DomainSpec(Nothing, s[1..])
  {
    if LocalSpec(s, seen) {
      var i :| 0 <= i < |s| && s[i] == '@' && (seen || i > 0)
        && AllPlain(s[..i]) && DomainSpec(Nothing, s[i + 1..]);
    }
    if seen && DomainSpec(Nothing, s[1..]) {
      assert s[..0] == [];
      assert LocalSpec(s, seen);
    }
  }

  lemma LocalSpecSpace(s: string, seen: bool)
    requires |s| > 0 && IsSpace(s[0])
    ensures !LocalSpec(s, seen)
  {
    if LocalSpec(s, seen) {
      var i :| 0 <= i < |s| && s[i] == '@' && (seen || i > 0)
        && AllPlain(s[..i]) && DomainSpec(Nothing, s[i + 1..]);
    }
  }

  lemma LocalSpecPlain(s: string, seen: bool)
    requires |s| > 0 && Plain(s[0])
    ensures LocalSpec(s, seen) <==> LocalSpec(s[1..], true)
  {
    var t := s[1..];
    if LocalSpec(s, seen) {
      var i :| 0 <= i < |s| && s[i] == '@' && (seen || i > 0)
        && AllPlain(s[..i]) && DomainSpec(Nothing, s[i + 1..]);
      assert i > 0;
      AllPlainCons(s[..i]);
      assert s[..i][1..] == t[..i - 1];
      assert s[i + 1..] == t[i..];
      assert t[i - 1] == '@';
    }
    if LocalSpec(t, true) {
      var i :| 0 <= i < |t| && t[i] == '@' && AllPlain(t[..i]) && DomainSpec(Nothing, t[i + 1..]);
      AllPlainCons(s[..i + 1]);
      assert s[..i + 1][1..] == t[..i];
      assert s[i + 2..] == t[i + 1..];
      assert s[i + 1] == '@';
    }
  }

  lemma {:induction false} MatchLocalCorrect(s: string, seen: bool)
    ensures MatchLocal(s, seen) <==> LocalSpec(s, seen)
    decreases |s|
  {
    if |s| == 0 {
    } else if s[0] == '@' {
      MatchDomainCorrect(Nothing, s[1..]);
      LocalSpecAt(s, seen);
    } else if IsSpace(s[0]) {
      LocalSpecSpace(s, seen);
    } else {
      MatchLocalCorrect(s[1..], true);
      LocalSpecPlain(s, seen);
    }
  }

  lemma LocalSpecToShape(s: string)
    requires LocalSpec(s, false)
    ensures EmailShape(s)
  {
    var i :| 0 <= i < |s| && s[i] == '@' && i > 0
      && AllPlain(s[..i]) && DomainSpec(Nothing, s[i + 1..]);
    var d := s[i + 1..];
    forall k | 0 <= k < |s| ensures !IsSpace(s[k]) && (s[k] == '@' ==> k == i) {
      if k < i { assert s[k] == s[..i][k]; }
      else if k > i { assert s[k] == d[k - i - 1]; }
    }
    var j :| 1 <= j < |d| - 1 && d[j] == '.';
    assert s[i + 1 + j] == '.';
    assert DotFrom(s, i + 2);
  }

  lemma ShapeToLocalSpec(s: string)
    requires EmailShape(s)
    ensures LocalSpec(s, false)
  {
    var i :| 0 < i < |s| && s[i] == '@'
      && (forall k :: 0 <= k < |s| ==> !IsSpace(s[k]))
      && (forall k :: 0 <= k < |s| && s[k] == '@' ==> k == i)
      && DotFrom(s, i + 2);
    var d := s[i + 1..];
    assert AllPlain(s[..i]) by {
      forall k | 0 <= k < i ensures Plain(s[..i][k]) { assert s[..i][k] == s[k]; }
    }
    assert AllPlain(d) by {
      forall k | 0 <= k < |d| ensures Plain(d[k]) { assert d[k] == s[i + 1 + k]; }
    }
    var j :| i + 2 <= j < |s| - 1 && s[j] == '.';
    assert d[j - i - 1] == '.';
    assert DotFrom(d, 1);
  }

  /** The split form agrees with the character-level description of the accepted addresses. */
  lemma LocalSpecIsEmailShape(s: string)
    ensures LocalSpec(s, false) <==> EmailShape(s)
  {
    if LocalSpec(s, false) { LocalSpecToShape(s); }
    if EmailShape(s) { ShapeToLocalSpec(s); }
  }

  /**
   The email check accepts exactly the addresses with no whitespace, exactly one
   '@', a non-empty part before it, and a '.' after it with a character on each side.
   */
  lemma IsValidEmailIffShape(s: string)
    ensures IsValidEmail(s) <==> EmailShape(s)
  {
    MatchLocalCorrect(s, false);
    LocalSpecIsEmailShape(s);
  }

  /** Concrete instances of the pattern, one per way to be rejected. */
  lemma EmailExamples()
    ensures IsValidEmail("a@b.c")
    ensures IsValidEmail("a.b@c.d.e")
    ensures IsValidEmail("a@b..")
    ensures !IsValidEmail("@b.c")
    ensures !IsValidEmail("a@b.")
    ensures !IsValidEmail("a@bc")
    ensures !IsValidEmail("a@@b.c")
    ensures !IsValidEmail("a b@c.d")
    ensures !IsValidEmail("")
  {
  }
}
