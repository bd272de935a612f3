/** Source identifier strings: blankness, the canonical form, and which parcel
    numbers can be recorded at all. */
module Identifiers {
  import opened Schema

  /** What `str.strip()` removes: the characters for which `str.isspace()` holds. */
  predicate IsSpace(c: char) {
    || '\t' <= c <= '\r'
    || '\U{1c}' <= c <= ' '
    || c in {'\U{85}', '\U{a0}', '\U{1680}', '\U{2028}', '\U{2029}', '\U{202f}', '\U{205f}', '\U{3000}'}
    || '\U{2000}' <= c <= '\U{200a}'
  }

  predicate AllSpace(s: string) {
    forall i :: 0 <= i < |s| ==> IsSpace(s[i])
  }

  /** No surrounding whitespace. */
  predicate Trimmed(s: string) {
    s != [] ==> !IsSpace(s[0]) && !IsSpace(s[|s| - 1])
  }

  function StripLeft(s: string): (r: string)
    ensures |r| <= |s| && (r != [] ==> !IsSpace(r[0]))
  {
    if s != [] && IsSpace(s[0]) then StripLeft(s[1..]) else s
  }

  function StripRight(s: string): (r: string)
    ensures |r| <= |s| && (r != [] ==> !IsSpace(r[|r| - 1]) && r[0] == s[0])
  {
    if s != [] && IsSpace(s[|s| - 1]) then StripRight(s[..|s| - 1]) else s
  }

  function Strip(s: string): (r: string)
    ensures |r| <= |s| && Trimmed(r)
  {
    StripRight(StripLeft(s))
  }

  /** `Strip` is the unique way to see a string as whitespace around a trimmed core. */
  lemma {:induction false} StripFinds(s: string, before: string, core: string, after: string)
    requires s == before + core + after && AllSpace(before) && AllSpace(after) && Trimmed(core)
    ensures Strip(s) == core
    decreases |before| + |after|
  {
    if before != [] {
      assert s[0] == before[0];
      assert s[1..] == before[1..] + core + after;
      StripFinds(s[1..], before[1..], core, after);
    } else if core == [] {
      AllSpaceStripsAway(s);
    } else {
      assert s[0] == core[0];
      assert StripLeft(s) == s;
      StripRightFinds(s, core, after);
    }
  }

  lemma {:induction false} StripRightFinds(s: string, core: string, after: string)
    requires s == core + after && AllSpace(after) && Trimmed(core)
    ensures StripRight(s) == core
  {
    if after != [] {
      assert s[|s| - 1] == after[|after| - 1];
      assert s[..|s| - 1] == core + after[..|after| - 1];
      StripRightFinds(s[..|s| - 1], core, after[..|after| - 1]);
    } else {
      assert s == core;
    }
  }

  lemma {:induction false} AllSpaceStripsAway(s: string)
    requires AllSpace(s)
    ensures StripLeft(s) == [] && Strip(s) == []
  {
    if s != [] { AllSpaceStripsAway(s[1..]); }
  }

  lemma {:induction false} TrimmedStaysPut(s: string)
    requires Trimmed(s)
    ensures Strip(s) == s
  {
    assert s == [] + s + [];
    StripFinds(s, [], s, []);
  }

  /** By code point: the 29 characters Python's `str.isspace()` accepts. */
  lemma SpacesAre(c: char)
    ensures IsSpace(c) <==> (c as int in {9, 10, 11, 12, 13, 28, 29, 30, 31, 32, 133, 160, 5760, 8192, 8193, 8194, 8195, 8196,
                                          8197, 8198, 8199, 8200, 8201, 8202, 8232, 8233, 8239, 8287, 12288})
  {
  }

  /** What is stripped is whitespace, and only at the ends. */
  lemma {:induction false} StripSplits(s: string) returns (before: string, after: string)
    ensures s == before + Strip(s) + after && AllSpace(before) && AllSpace(after)
  {
    before := LeftSplits(s);
    after := RightSplits(StripLeft(s));
    assert s == before + (Strip(s) + after);
  }

  lemma {:induction false} LeftSplits(s: string) returns (before: string)
    ensures s == before + StripLeft(s) && AllSpace(before)
  {
    before := [];
    if s != [] && IsSpace(s[0]) {
      var rest := LeftSplits(s[1..]);
      before := [s[0]] + rest;
    }
  }

  lemma {:induction false} RightSplits(s: string) returns (after: string)
    ensures s == StripRight(s) + after && AllSpace(after)
  {
    after := [];
    if s != [] && IsSpace(s[|s| - 1]) {
      var rest := RightSplits(s[..|s| - 1]);
      after := rest + [s[|s| - 1]];
    }
  }

  predicate IsBlank(v: Option<string>) {
    v.None? || Strip(v.value) == []
  }

  /** Blank is missing, or whitespace throughout. */
  lemma {:induction false} BlankMeans(v: Option<string>)
    ensures IsBlank(v) <==> v.None? || AllSpace(v.value)
  {
    if v.Some? {
      if AllSpace(v.value) { AllSpaceStripsAway(v.value); }
      var before, after := StripSplits(v.value);
    }
  }

  function Canonical(s: string): (r: string)
    ensures Trimmed(r)
  {
    var t := Strip(s);
    Strip(if t != [] && t[0] == '\'' then t[1..] else t)
  }

  function Canonicalize(raw: Option<string>): Option<string> {
    if raw.None? then None else Some(Canonical(raw.value))
  }

  lemma {:induction false} QuotedCore(s: string, before: string, between: string, core: string, after: string)
    requires AllSpace(before) && AllSpace(between) && AllSpace(after) && Trimmed(core) && core != []
    requires s == before + ("'" + between + core) + after
    ensures Canonical(s) == core
  {
    var quoted := "'" + between + core;
    assert quoted[0] == '\'' && quoted[|quoted| - 1] == core[|core| - 1];
    StripFinds(s, before, quoted, after);
    assert quoted[1..] == between + core + [];
    StripFinds(quoted[1..], between, core, []);
  }

  lemma {:induction false} QuotedNothing(s: string, before: string, after: string)
    requires AllSpace(before) && AllSpace(after) && s == before + "'" + after
    ensures Canonical(s) == []
  {
    StripFinds(s, before, "'", after);
  }

  lemma {:induction false} PlainCore(s: string, before: string, core: string, after: string)
    requires AllSpace(before) && AllSpace(after) && Trimmed(core) && (core == [] || core[0] != '\'')
    requires s == before + core + after
    ensures Canonical(s) == core
  {
    StripFinds(s, before, core, after);
    TrimmedStaysPut(core);
  }

  /** A clean identifier is recovered from whitespace around it, and from a "force
      text" apostrophe in front of it with whitespace on either side of that. */
  lemma {:induction false} CanonicalUndoesDefects(before: string, between: string, core: string, after: string)
    requires AllSpace(before) && AllSpace(between) && AllSpace(after)
    requires Trimmed(core) && (core == [] || core[0] != '\'')
    ensures Canonical(before + core + after) == core
    ensures Canonical(before + "'" + between + core + after) == core
  {
    PlainCore(before + core + after, before, core, after);
    var s := before + "'" + between + core + after;
    if core == [] {
      assert s == before + "'" + (between + after);
      QuotedNothing(s, before, between + after);
    } else {
      assert s == before + ("'" + between + core) + after;
      QuotedCore(s, before, between, core, after);
    }
  }

  /** What canonicalising takes away: whitespace around, and one apostrophe in front with the whitespace behind it. */
  lemma {:induction false} CanonicalSplits(s: string) returns (before: string, quote: string, between: string, after: string)
    ensures s == before + quote + between + Canonical(s) + after
    ensures AllSpace(before) && AllSpace(between) && AllSpace(after)
    ensures quote == "'" || (quote == "" && between == "" && (Canonical(s) == "" || Canonical(s)[0] != '\''))
  {
    var core := Strip(s);
    before, after := StripSplits(s);
    quote, between := "", "";
    if core != [] && core[0] == '\'' {
      var right;
      between, right := QuoteSplits(core);
      quote := "'";
      Regroup(before, "'" + between + Canonical(s), right, after);
      after := right + after;
    } else {
      TrimmedStaysPut(core);
    }
  }

  lemma QuoteSplits(core: string) returns (between: string, after: string)
    requires core != [] && core[0] == '\''
    ensures core == "'" + between + Strip(core[1..]) + after && AllSpace(between) && AllSpace(after)
  {
    between, after := StripSplits(core[1..]);
    assert core == "'" + core[1..];
  }

  lemma Regroup(a: string, b: string, c: string, d: string)
    requires AllSpace(c) && AllSpace(d)
    ensures a + (b + c) + d == a + b + (c + d) && AllSpace(c + d)
  {
  }

  /** Only one apostrophe is stripped, so canonicalising twice is the same as once
      exactly when the canonical form does not itself start with one. */
  lemma {:induction false} CanonicalTwice(s: string)
    ensures Canonical(Canonical(s)) == Canonical(s) <==> !(Canonical(s) != [] && Canonical(s)[0] == '\'')
  {
    TrimmedStaysPut(Canonical(s));
  }

  /** The smallest identifier that is not stable. */
  lemma {:induction false} CanonicalIsNotIdempotent()
    ensures Canonical("''1") == "'1" && Canonical("'1") == "1"
  {
    assert "''1" == [] + ("'" + [] + "'1") + [];
    QuotedCore("''1", [], [], "'1", []);
    assert "'1" == [] + ("'" + [] + "1") + [];
    QuotedCore("'1", [], [], "1", []);
  }

  function UnresolvableCanonical(canonical: Option<string>): Option<Reason> {
    if IsBlank(canonical) then Some(BlankApn)
    else if '?' in canonical.value then Some(PlaceholderApn)
    else None
  }

  /** `is_unresolvable_apn`: the reason, when the raw value cannot be recorded. */
  function UnresolvableApn(raw: Option<string>): Option<Reason> {
    UnresolvableCanonical(Canonicalize(raw))
  }

  /** `apn_canonical IS NOT NULL AND apn_canonical NOT LIKE '%?%'`, the SQL stand-in
      for "resolvable" in the change query. */
  predicate SqlResolvable(canonical: Option<string>) {
    canonical.Some? && '?' !in canonical.value
  }

  lemma {:induction false} BlankIsEmpty(c: string)
    requires Trimmed(c)
    ensures IsBlank(Some(c)) <==> c == []
  {
    TrimmedStaysPut(c);
  }

  /** Why a number cannot be recorded: it is missing or canonically empty, or it has a question mark in it. */
  lemma {:induction false} WhyUnresolvable(raw: Option<string>)
    ensures UnresolvableApn(raw) == Some(BlankApn) <==> raw.None? || Canonical(raw.value) == ""
    ensures UnresolvableApn(raw) == Some(PlaceholderApn) <==>
      raw.Some? && Canonical(raw.value) != "" && '?' in Canonical(raw.value)
    ensures UnresolvableApn(raw) == None <==> raw.Some? && Canonical(raw.value) != "" && '?' !in Canonical(raw.value)
  {
    if raw.Some? { BlankIsEmpty(Canonical(raw.value)); }
  }

  /** The SQL filter never drops a resolvable value; it also lets through exactly
      the values whose canonical form is the empty string. */
  lemma {:induction false} SqlFilterIsWider(raw: Option<string>)
    ensures SqlResolvable(Canonicalize(raw)) <==> UnresolvableApn(raw).None? || Canonicalize(raw) == Some("")
  {
    if raw.Some? {
      BlankIsEmpty(Canonical(raw.value));
    }
  }
}
