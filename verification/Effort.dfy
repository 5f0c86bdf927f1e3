/** The effort suffix of a model id (internal/effort/effort.go) and the clones the combo picker
    offers (internal/provider/effort.go). */
module Effort {
  // ---------------------------------------------------------------- the codec

  const LEVELS: seq<string> := ["extra-low", "medium", "xhigh", "ultra", "high", "low", "max"]
  const SUFFIXES: seq<string> := ["extra-low", "medium", "xhigh", "ultra", "high", "low", "max", "thinking", "tiered"]

  predicate Level(s: string) { s in LEVELS }

  predicate HasSuffix(s: string, suffix: string) {
    |suffix| <= |s| && s[|s| - |suffix|..] == suffix
  }

  /** The result of Split; an id without a suffix is its own base. */
  datatype Parts = Parts(base: string, suffix: string, found: bool)

  /** Whether marker can be cut from model leaving something. */
  predicate Cuttable(model: string, suffix: string) {
    HasSuffix(model, "-" + suffix) && |model| > 1 + |suffix|
  }

  function SplitFrom(model: string, suffixes: seq<string>): Parts {
    if suffixes == [] then Parts(model, "", false)
    else if Cuttable(model, suffixes[0]) then Parts(model[..|model| - 1 - |suffixes[0]|], suffixes[0], true)
    else SplitFrom(model, suffixes[1..])
  }

  function Split(model: string): Parts {
    if Level(model) then Parts(model, "", false) else SplitFrom(model, SUFFIXES)
  }

  function Base(model: string): string { Split(model).base }

  function Apply(base: string, level: string): string {
    if level == "" then base else base + "-" + level
  }

  /** The ids Apply makes that Split reads back. */
  predicate ReadsBack(base: string, level: string) {
    && base != ""
    && !(level == "low" && (base == "extra" || (HasSuffix(base, "-extra") && base != "-extra")))
  }

  lemma CutSuffix(s: string, marker: string)
    requires HasSuffix(s, marker)
    ensures s == s[..|s| - |marker|] + marker
  {
  }

  /** What is found is really there: base and suffix spell the model, the base is not empty. */
  lemma {:induction false} SplitFromSpells(model: string, suffixes: seq<string>)
    ensures var p := SplitFrom(model, suffixes);
            if p.found then p.suffix in suffixes && p.base != "" && model == p.base + ("-" + p.suffix)
            else p == Parts(model, "", false)
  {
    if suffixes != [] {
      if Cuttable(model, suffixes[0]) {
        CutSuffix(model, "-" + suffixes[0]);
      } else {
        SplitFromSpells(model, suffixes[1..]);
      }
    }
  }

  lemma SplitSpells(model: string)
    ensures var p := Split(model);
            if p.found then p.suffix in SUFFIXES && p.base != "" && model == Apply(p.base, p.suffix)
            else p.base == model
  {
    SplitFromSpells(model, SUFFIXES);
    var p := Split(model);
    if p.found {
      LastChars(p.suffix);
      Joined(p.base, p.suffix);
    }
  }

  lemma Joined(base: string, suffix: string)
    requires suffix != ""
    ensures base + ("-" + suffix) == Apply(base, suffix)
  {
  }

  /** Two suffixes of one id end in the same character, and fit character by character. */
  lemma SuffixChar(s: string, a: string, b: string, k: nat)
    requires HasSuffix(s, a) && HasSuffix(s, b) && k < |a| && k < |b|
    ensures a[|a| - 1 - k] == b[|b| - 1 - k]
  {
    assert a[|a| - 1 - k] == s[|s| - 1 - k];
  }

  /** The last character all but tells the suffixes apart. */
  lemma LastChars(s: string)
    requires s in SUFFIXES
    ensures s != "" && |s| >= 3
    ensures s[|s| - 1] == 'w' <==> s == "extra-low" || s == "low"
    ensures s[|s| - 1] == 'h' <==> s == "xhigh" || s == "high"
    ensures s[|s| - 1] == 'm' <==> s == "medium"
    ensures s[|s| - 1] == 'a' <==> s == "ultra"
    ensures s[|s| - 1] == 'x' <==> s == "max"
    ensures s[|s| - 1] == 'g' <==> s == "thinking"
    ensures s[|s| - 1] == 'd' <==> s == "tiered"
  {
  }

  lemma SameLast(a: string, b: string)
    requires a in SUFFIXES && b in SUFFIXES && a != b
    requires a != "" && b != "" ==> a[|a| - 1] == b[|b| - 1]
    ensures (a == "low" || a == "extra-low" || a == "high" || a == "xhigh")
    ensures (a == "low" <==> b == "extra-low") && (a == "extra-low" <==> b == "low")
    ensures (a == "high" <==> b == "xhigh") && (a == "xhigh" <==> b == "high")
  {
    LastChars(a);
    LastChars(b);
  }

  /** Of the known suffixes, an id ending in one level can only end in another one if the two
      are low and extra-low. */
  lemma OtherSuffix(base: string, level: string, other: string)
    requires level in SUFFIXES && other in SUFFIXES && other != level
    requires HasSuffix(base + "-" + level, "-" + other)
    ensures (level == "low" && other == "extra-low") || (level == "extra-low" && other == "low")
  {
    SameEnd(base, level, other);
    SameLast(level, other);
    HighIsNotXhigh(base + "-" + level);
    OwnSuffix(base, level);
  }

  lemma OwnSuffix(base: string, level: string)
    ensures HasSuffix(base + "-" + level, "-" + level)
  {
    assert base + "-" + level == base + ("-" + level);
  }

  lemma SameEnd(base: string, level: string, other: string)
    requires HasSuffix(base + "-" + level, "-" + other)
    ensures level != "" && other != "" ==> level[|level| - 1] == other[|other| - 1]
  {
    OwnSuffix(base, level);
    if level != "" && other != "" {
      SuffixChar(base + "-" + level, "-" + level, "-" + other, 0);
    }
  }

  lemma HighIsNotXhigh(id: string)
    ensures HasSuffix(id, "-xhigh") ==> !HasSuffix(id, "-high")
  {
    if HasSuffix(id, "-xhigh") {
      assert id[|id| - 6..][1] == 'x';
      assert id[|id| - 5..][0] == 'x';
    }
  }

  /** An id ending in -extra-low, cut before -low. */
  lemma ExtraLow(base: string)
    requires HasSuffix(base + "-low", "-extra-low")
    ensures HasSuffix(base, "-extra")
  {
    var id := base + "-low";
    assert id[|id| - 10..] == "-extra" + "-low";
    assert id[|id| - 10..|id| - 4] == "-extra";
    assert base[|base| - 6..] == id[|id| - 10..|id| - 4];
  }

  /** No suffix but its own matches an id that reads back, up to where the search stops. */
  lemma NoOther(base: string, level: string, other: string)
    requires level in SUFFIXES && other in SUFFIXES && other != level
    requires level == "low" ==> !HasSuffix(base, "-extra") || base == "-extra"
    requires level == "extra-low" ==> other != "low"
    ensures !Cuttable(base + "-" + level, other)
  {
    if Cuttable(base + "-" + level, other) {
      OtherSuffix(base, level, other);
      assert base + "-" + level == base + "-low";
      ExtraLow(base);
    }
  }

  /** The search finds a suffix unless it comes too late. */
  lemma {:induction false} FindsLevel(base: string, level: string, suffixes: seq<string>, at: nat)
    requires base != "" && at < |suffixes| && suffixes[at] == level
    requires forall i :: 0 <= i < at ==> !Cuttable(base + "-" + level, suffixes[i])
    ensures SplitFrom(base + "-" + level, suffixes) == Parts(base, level, true)
  {
    var id := base + "-" + level;
    if at == 0 {
      OwnSuffix(base, level);
      assert id[..|id| - 1 - |level|] == base;
    } else {
      assert !Cuttable(id, suffixes[0]);
      FindsLevel(base, level, suffixes[1..], at - 1);
    }
  }

  lemma Distinct(i: nat, j: nat)
    requires i < j < |SUFFIXES|
    ensures SUFFIXES[i] != SUFFIXES[j]
    ensures SUFFIXES[j] == "extra-low" ==> SUFFIXES[i] != "low"
  {
  }

  /** A level spelled base-level is extra-low. */
  lemma LevelWithDash(base: string, level: string)
    requires Level(base + "-" + level)
    ensures base == "extra" && level == "low"
  {
    var id, n := base + "-" + level, |base|;
    assert id[n] == '-' && n < |id|;
    DashAt(id, n);
    assert level == id[n + 1..] && base == id[..n];
  }

  lemma DashAt(s: string, n: nat)
    requires Level(s) && n < |s| && s[n] == '-'
    ensures s == "extra-low" && n == 5
  {
  }

  lemma Known(suffix: string)
    requires Level(suffix)
    ensures suffix in SUFFIXES
  {
    var at :| 0 <= at < |LEVELS| && LEVELS[at] == suffix;
    assert SUFFIXES[at] == suffix;
  }

  lemma ReadsBackSuffices(base: string, suffix: string)
    requires suffix in SUFFIXES && ReadsBack(base, suffix)
    ensures Split(Apply(base, suffix)) == Parts(base, suffix, true)
  {
    var id := base + "-" + suffix;
    LastChars(suffix);
    var at :| 0 <= at < |SUFFIXES| && SUFFIXES[at] == suffix;
    if Level(id) {
      LevelWithDash(base, suffix);
    }
    forall i | 0 <= i < at
      ensures !Cuttable(id, SUFFIXES[i])
    {
      Distinct(i, at);
      NoOther(base, suffix, SUFFIXES[i]);
    }
    FindsLevel(base, suffix, SUFFIXES, at);
  }

  /** The ids that read back as something else. */
  lemma DoesNotReadBack(base: string, level: string)
    requires Level(level) && level != "" && !ReadsBack(base, level)
    ensures Split(Apply(base, level)) != Parts(base, level, true)
  {
    if base == "" {
      SplitSpells(Apply(base, level));
    } else if base == "extra" {
      ExtraLowIsLevel();
    } else {
      SplitsExtraLow(base);
      assert Apply(base, "low") == base + "-low";
    }
  }

  lemma ExtraLowIsLevel()
    ensures !Split(Apply("extra", "low")).found
  {
    assert Apply("extra", "low") == "extra-low" == LEVELS[0];
  }

  /** Split undoes Apply exactly for the ids that read back: not for an empty base, and not for
      low on extra or on a longer id ending in -extra, where extra-low is found instead. */
  lemma RoundTrip(base: string, level: string)
    requires Level(level)
    ensures Split(Apply(base, level)) == Parts(base, level, true) <==> ReadsBack(base, level)
  {
    assert level != "";
    Known(level);
    if ReadsBack(base, level) {
      ReadsBackSuffices(base, level);
    } else {
      DoesNotReadBack(base, level);
    }
  }

  /** low on a longer id ending in -extra reads as extra-low on what comes before. */
  lemma SplitsExtraLow(base: string)
    requires HasSuffix(base, "-extra") && base != "-extra"
    ensures Split(base + "-low") == Parts(base[..|base| - 6], "extra-low", true)
  {
    var id, x := base + "-low", base[..|base| - 6];
    CutSuffix(base, "-extra");
    assert "-extra" + "-low" == "-" + "extra-low";
    assert id == x + "-" + "extra-low";
    if Level(id) {
      LevelWithDash(base, "low");
    }
    FindsLevel(x, "extra-low", SUFFIXES, 0);
  }
}
