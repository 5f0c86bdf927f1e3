/** The model ids the combo picker offers (internal/provider/effort.go) against the rule that
    says which ids a combo target may carry (internal/config/config.go:126-165). The capability
    table is a parameter: None stands for a model without one. */
module Picker {
  import opened Bytes
  import opened Effort

  type Table = (string, string) -> Option<seq<string>>

  const ANTIGRAVITY_LEVELS: seq<string> := ["low", "medium", "high"]

  // ---------------------------------------------------------------- lists without repeats

  /** The elements of s in the order they are first seen. */
  function Firsts(s: seq<string>): seq<string> {
    if s == [] then []
    else
      var before := Firsts(s[..|s| - 1]);
      if s[|s| - 1] in before then before else before + [s[|s| - 1]]
  }

  predicate Distinct(s: seq<string>) { forall i, j :: 0 <= i < j < |s| ==> s[i] != s[j] }

  function Levels(s: seq<string>): seq<string> {
    if s == [] then []
    else if Level(s[|s| - 1]) then Levels(s[..|s| - 1]) + [s[|s| - 1]]
    else Levels(s[..|s| - 1])
  }

  lemma {:induction false} FirstsMeaning(s: seq<string>)
    ensures Distinct(Firsts(s))
    ensures forall x :: x in Firsts(s) <==> x in s
  {
    if s != [] {
      FirstsMeaning(s[..|s| - 1]);
      assert s == s[..|s| - 1] + [s[|s| - 1]];
    }
  }

  lemma {:induction false} LevelsMeaning(s: seq<string>)
    ensures forall x :: x in Levels(s) <==> x in s && Level(x)
  {
    if s != [] {
      LevelsMeaning(s[..|s| - 1]);
      assert s == s[..|s| - 1] + [s[|s| - 1]];
    }
  }

  /** Only concrete levels, each once, in the order they are first seen. */
  method DedupeLevels(levels: seq<string>) returns (out: seq<string>)
    ensures out == Firsts(Levels(levels))
    ensures Distinct(out) && forall x :: x in out <==> x in levels && Level(x)
  {
    out := [];
    var seen: set<string> := {};
    for i := 0 to |levels|
      invariant out == Firsts(Levels(levels[..i]))
      invariant forall x :: x in seen <==> x in out
    {
      TakeSnoc(levels, i);
      var level := levels[i];
      if level != "" && level !in seen && Level(level) {
        seen := seen + {level};
        out := out + [level];
      }
      assert !Level("");
    }
    assert levels[..|levels|] == levels;
    FirstsMeaning(Levels(levels));
    LevelsMeaning(levels);
  }

  // ---------------------------------------------------------------- effort variants

  predicate IsVariant(id: string) { Split(id).found && Level(Split(id).suffix) }

  /** The families with at least one level variant in the catalog. */
  function Families(catalog: seq<string>): set<string> {
    set id | id in catalog && IsVariant(id) :: Base(id)
  }

  lemma FamiliesSnoc(catalog: seq<string>, id: string)
    ensures Families(catalog + [id]) == Families(catalog) + if IsVariant(id) then {Base(id)} else {}
  {
    forall base
      ensures base in Families(catalog + [id]) <==> base in Families(catalog) + if IsVariant(id) then {Base(id)} else {}
    {
      if other :| other in catalog && IsVariant(other) && Base(other) == base {
        assert other in catalog + [id];
      }
      assert id in catalog + [id];
    }
  }

  method EffortFamilies(catalog: seq<string>) returns (families: set<string>)
    ensures families == Families(catalog)
  {
    families := {};
    for i := 0 to |catalog|
      invariant families == Families(catalog[..i])
    {
      FamiliesSnoc(catalog[..i], catalog[i]);
      assert catalog[..i + 1] == catalog[..i] + [catalog[i]];
      var parts := Split(catalog[i]);
      if parts.found && Level(parts.suffix) {
        families := families + {parts.base};
      }
    }
    assert catalog[..|catalog|] == catalog;
  }

  /** The levels a base may be cloned with, the family index given (effortVariants). */
  function Variants(caps: Table, kind: string, base: string, families: set<string>): seq<string> {
    if kind == "antigravity" then
      if base in families then ANTIGRAVITY_LEVELS else []
    else
      match caps(kind, base)
      case None => []
      case Some(levels) => Firsts(Levels(levels))
  }

  /** The same for one id of a catalog: its suffix is stripped first, here. */
  function EffortVariants(caps: Table, kind: string, base: string, catalog: seq<string>): seq<string> {
    Variants(caps, kind, Base(base), Families(catalog))
  }

  /** Whether a family may be cloned with a level: what membership in its variants comes to. */
  predicate Supports(caps: Table, kind: string, base: string, catalog: seq<string>, level: string) {
    if kind == "antigravity" then
      level in ANTIGRAVITY_LEVELS && exists id :: id in catalog && IsVariant(id) && Base(id) == base
    else
      Level(level) && caps(kind, base).Some? && level in caps(kind, base).value
  }

  lemma VariantsMeaning(caps: Table, kind: string, base: string, catalog: seq<string>)
    ensures var v := Variants(caps, kind, base, Families(catalog));
            && Distinct(v)
            && (forall level :: level in v <==> Supports(caps, kind, base, catalog, level))
            && (forall level :: level in v ==> Level(level))
  {
    if kind == "antigravity" {
      AntigravityLevels();
    } else if caps(kind, base).Some? {
      var levels := caps(kind, base).value;
      FirstsMeaning(Levels(levels));
      LevelsMeaning(levels);
    }
  }

  lemma AntigravityLevels()
    ensures Distinct(ANTIGRAVITY_LEVELS)
    ensures forall level :: level in ANTIGRAVITY_LEVELS ==> Level(level)
  {
    assert ANTIGRAVITY_LEVELS == [LEVELS[5], LEVELS[1], LEVELS[4]];
  }

  // ---------------------------------------------------------------- the target rule

  predicate HasModelFamily(ids: seq<string>, base: string) {
    base != "" && exists id :: id in ids && Base(id) == base
  }

  /** Whether a model is acceptable as a combo target, given a catalog. */
  predicate ListedTarget(caps: Table, kind: string, catalog: seq<string>, model: string) {
    || model in catalog
    || (var p := Split(model);
        && p.found && Level(p.suffix) && HasModelFamily(catalog, p.base)
        && p.suffix in EffortVariants(caps, kind, p.base, catalog))
  }

  /** A larger catalog accepts more. */
  lemma ListedTargetMonotone(caps: Table, kind: string, small: seq<string>, large: seq<string>, model: string)
    requires forall id :: id in small ==> id in large
    requires ListedTarget(caps, kind, small, model)
    ensures ListedTarget(caps, kind, large, model)
  {
    if model !in small {
      var p := Split(model);
      VariantsMeaning(caps, kind, Base(p.base), small);
      VariantsMeaning(caps, kind, Base(p.base), large);
    }
  }

  // ---------------------------------------------------------------- the picker

  /** One entry of the picker. */
  datatype Entry = Entry(id: string, text: string, effort: bool)

  function Ids(out: seq<Entry>): seq<string> { seq(|out|, i requires 0 <= i < |out| => out[i].id) }

  /** The ids not yet offered and not listed join as clones. */
  function AddClones(out: seq<Entry>, ids: seq<string>, models: seq<string>): seq<Entry> {
    if ids == [] then out
    else
      var before, id := AddClones(out, ids[..|ids| - 1], models), ids[|ids| - 1];
      if id in models || id in Ids(before) then before else before + [Entry(id, id, true)]
  }

  /** A model joins unless it is there, and its clones (a list of ids) with it. */
  function AddModel(clones: string -> seq<string>, models: seq<string>, out: seq<Entry>, model: string): seq<Entry> {
    if model in Ids(out) then out
    else AddClones(out + [Entry(model, model, false)], clones(model), models)
  }

  function Offers(clones: string -> seq<string>, models: seq<string>, k: nat): seq<Entry>
    requires k <= |models|
  {
    if k == 0 then [] else AddModel(clones, models, Offers(clones, models, k - 1), models[k - 1])
  }

  function CloneIds(base: string, levels: seq<string>): seq<string> {
    seq(|levels|, i requires 0 <= i < |levels| => Apply(base, levels[i]))
  }

  function ClonesOf(caps: Table, kind: string, models: seq<string>, model: string): seq<string> {
    CloneIds(Base(model), Variants(caps, kind, Base(model), Families(models)))
  }

  function ClonesIn(caps: Table, kind: string, models: seq<string>): string -> seq<string> {
    model => ClonesOf(caps, kind, models, model)
  }

  /** The ids of the entries that are not clones. */
  function PlainIds(out: seq<Entry>): seq<string> {
    if out == [] then []
    else if out[|out| - 1].effort then PlainIds(out[..|out| - 1])
    else PlainIds(out[..|out| - 1]) + [out[|out| - 1].id]
  }

  predicate CloneOfSome(clones: string -> seq<string>, models: seq<string>, id: string) {
    exists model :: model in models && id in clones(model)
  }

  ghost predicate SoundEntry(clones: string -> seq<string>, models: seq<string>, e: Entry) {
    && e.text == e.id
    && (e.id in models <==> !e.effort)
    && (e.effort ==> CloneOfSome(clones, models, e.id))
  }

  /** What is true of the entries at any point: no id twice, the plain ones are listed models,
      the others are clones of listed models that the catalog does not list itself. */
  ghost predicate Sound(clones: string -> seq<string>, models: seq<string>, out: seq<Entry>) {
    && Distinct(Ids(out))
    && (forall e :: e in out ==> SoundEntry(clones, models, e))
  }

  predicate Subset(a: seq<string>, b: seq<string>) { forall x :: x in a ==> x in b }

  lemma IdsSnoc(out: seq<Entry>, e: Entry)
    ensures Ids(out + [e]) == Ids(out) + [e.id]
    ensures PlainIds(out + [e]) == if e.effort then PlainIds(out) else PlainIds(out) + [e.id]
  {
    assert (out + [e])[..|out|] == out;
  }

  lemma SoundSnoc(clones: string -> seq<string>, models: seq<string>, out: seq<Entry>, e: Entry)
    requires Sound(clones, models, out) && SoundEntry(clones, models, e) && e.id !in Ids(out)
    ensures Sound(clones, models, out + [e])
    ensures Ids(out + [e]) == Ids(out) + [e.id]
    ensures PlainIds(out + [e]) == if e.effort then PlainIds(out) else PlainIds(out) + [e.id]
  {
    IdsSnoc(out, e);
  }

  lemma {:induction false} AddClonesFacts(clones: string -> seq<string>, models: seq<string>, out: seq<Entry>,
                                          model: string, ids: seq<string>)
    requires model in models && Sound(clones, models, out)
    requires Subset(ids, clones(model))
    ensures var r := AddClones(out, ids, models);
            && Sound(clones, models, r)
            && PlainIds(r) == PlainIds(out)
            && Subset(Ids(out), Ids(r)) && Subset(ids, models + Ids(r))
  {
    if ids != [] {
      var n := |ids| - 1;
      assert ids == ids[..n] + [ids[n]];
      AddClonesFacts(clones, models, out, model, ids[..n]);
      var before, id := AddClones(out, ids[..n], models), ids[n];
      if id !in models && id !in Ids(before) {
        assert id in clones(model);
        SoundSnoc(clones, models, before, Entry(id, id, true));
      }
    }
  }

  lemma AddModelFacts(clones: string -> seq<string>, models: seq<string>, out: seq<Entry>, model: string)
    requires model in models && Sound(clones, models, out)
    requires model in Ids(out) ==> Subset(clones(model), models + Ids(out))
    ensures var r := AddModel(clones, models, out, model);
            && Sound(clones, models, r)
            && PlainIds(r) == (if model in Ids(out) then PlainIds(out) else PlainIds(out) + [model])
            && Subset(Ids(out), Ids(r)) && Subset(clones(model), models + Ids(r))
  {
    if model !in Ids(out) {
      var e := Entry(model, model, false);
      SoundSnoc(clones, models, out, e);
      AddClonesFacts(clones, models, out + [e], model, clones(model));
    }
  }

  /** A listed model is plain wherever it occurs. */
  lemma {:induction false} ListedIsPlain(clones: string -> seq<string>, models: seq<string>, out: seq<Entry>, id: string)
    requires Sound(clones, models, out) && id in models
    ensures id in Ids(out) <==> id in PlainIds(out)
  {
    if out != [] {
      var n := |out| - 1;
      assert out == out[..n] + [out[n]];
      IdsSnoc(out[..n], out[n]);
      assert forall i :: 0 <= i < n ==> Ids(out[..n])[i] == Ids(out)[i];
      ListedIsPlain(clones, models, out[..n], id);
      assert SoundEntry(clones, models, out[n]);
    }
  }

  lemma {:induction false} OffersFacts(clones: string -> seq<string>, models: seq<string>, k: nat)
    requires k <= |models|
    ensures var r := Offers(clones, models, k);
            && Sound(clones, models, r)
            && PlainIds(r) == Firsts(models[..k])
            && (forall model :: model in models[..k] ==> Subset(clones(model), models + Ids(r)))
  {
    if k > 0 {
      OffersFacts(clones, models, k - 1);
      var out, model := Offers(clones, models, k - 1), models[k - 1];
      TakeSnoc(models, k - 1);
      assert models[..k] == models[..k - 1] + [model];
      ListedIsPlain(clones, models, out, model);
      FirstsMeaning(models[..k - 1]);
      AddModelFacts(clones, models, out, model);
    }
  }

  lemma UnlistedIsClone(clones: string -> seq<string>, models: seq<string>, out: seq<Entry>, id: string)
    requires Sound(clones, models, out) && id !in models
    ensures id in Ids(out) ==> CloneOfSome(clones, models, id)
  {
    if id in Ids(out) {
      var i :| 0 <= i < |Ids(out)| && Ids(out)[i] == id;
      assert SoundEntry(clones, models, out[i]);
    }
  }

  /** The picker's list: each listed model once and in its first-seen order, a clone for every
      level of every listed model unless the catalog lists that id itself, no id twice, and
      nothing else. */
  lemma PickerMeaning(clones: string -> seq<string>, models: seq<string>)
    ensures var r := Offers(clones, models, |models|);
            && Sound(clones, models, r)
            && PlainIds(r) == Firsts(models)
            && (forall id :: id in Ids(r) <==> (id in models || CloneOfSome(clones, models, id)))
  {
    var r := Offers(clones, models, |models|);
    OffersFacts(clones, models, |models|);
    assert models[..|models|] == models;
    FirstsMeaning(models);
    forall id
      ensures id in Ids(r) <==> (id in models || CloneOfSome(clones, models, id))
    {
      if id in models {
        ListedIsPlain(clones, models, r, id);
      } else if CloneOfSome(clones, models, id) {
        var model :| model in models && id in clones(model);
        assert id in models + Ids(r);
      } else {
        UnlistedIsClone(clones, models, r, id);
      }
    }
  }

  method ModelsWithEffort(caps: Table, kind: string, models: seq<string>) returns (out: seq<Entry>)
    ensures out == Offers(ClonesIn(caps, kind, models), models, |models|)
  {
    var families := EffortFamilies(models);
    var seen: set<string> := {};
    out := [];
    for i := 0 to |models|
      invariant out == Offers(ClonesIn(caps, kind, models), models, i)
      invariant forall id :: id in seen <==> id in Ids(out)
    {
      out, seen := OfferModel(caps, kind, out, seen, models[i], families, models);
    }
  }

  /** One round of the outer loop: one listed model. */
  method OfferModel(caps: Table, kind: string, have: seq<Entry>, known: set<string>, model: string,
                    families: set<string>, models: seq<string>)
    returns (out: seq<Entry>, seen: set<string>)
    requires families == Families(models)
    requires forall id :: id in known <==> id in Ids(have)
    ensures out == AddModel(ClonesIn(caps, kind, models), models, have, model)
    ensures forall id :: id in seen <==> id in Ids(out)
  {
    out, seen := have, known;
    if model in seen {
      return;
    }
    IdsSnoc(out, Entry(model, model, false));
    seen := seen + {model};
    out := out + [Entry(model, model, false)];
    var levels := Variants(caps, kind, Base(model), families);
    if |levels| == 0 {
      assert CloneIds(Base(model), levels) == [];
      return;
    }
    out, seen := OfferClones(out, seen, Base(model), levels, models);
  }

  /** The inner loop: one family's clones. */
  method OfferClones(have: seq<Entry>, known: set<string>, base: string, levels: seq<string>, models: seq<string>)
    returns (out: seq<Entry>, seen: set<string>)
    requires forall id :: id in known <==> id in Ids(have)
    ensures out == AddClones(have, CloneIds(base, levels), models)
    ensures forall id :: id in seen <==> id in Ids(out)
  {
    out, seen := have, known;
    ghost var ids := CloneIds(base, levels);
    for i := 0 to |levels|
      invariant out == AddClones(have, ids[..i], models)
      invariant forall id :: id in seen <==> id in Ids(out)
    {
      assert ids[..i + 1][..i] == ids[..i] && ids[..i + 1][i] == ids[i];
      var id := Apply(base, levels[i]);
      if id in models || id in seen {
        continue;
      }
      IdsSnoc(out, Entry(id, id, true));
      seen := seen + {id};
      out := out + [Entry(id, id, true)];
    }
    assert ids[..|levels|] == ids;
  }

  // ---------------------------------------------------------------- picker and rule agree

  /** When a clone the catalog does not list is accepted as a target. */
  predicate CloneFits(caps: Table, kind: string, models: seq<string>, base: string, level: string) {
    if ReadsBack(base, level) then
      // EffortVariants strips the base once more.
      Supports(caps, kind, Base(base), models, level)
    else if base == "" then
      level == "extra-low" && HasModelFamily(models, "-extra") && Supports(caps, kind, Base("-extra"), models, "low")
    else if base == "extra" then
      false
    else
      var family := base[..|base| - 6];
      HasModelFamily(models, family) && Supports(caps, kind, Base(family), models, "extra-low")
  }

  lemma EmptyBase(level: string)
    requires Level(level)
    ensures var p := Split(Apply("", level));
            if level == "extra-low" then p == Parts("-extra", "low", true) else !p.found
  {
    var id := Apply("", level);
    if level == "extra-low" {
      KnownLevels();
      Known("low");
      ReadsBackSuffices("-extra", "low");
      assert id == Apply("-extra", "low");
    } else {
      var p := Split(id);
      SplitSpells(id);
      if p.found {
        LastChars(p.suffix);
        assert id == "" + "-" + level;
        NoEmptyCut(level, p.suffix, p.base);
      }
    }
  }

  lemma NoEmptyCut(level: string, suffix: string, base: string)
    requires Level(level) && level != "extra-low" && suffix in SUFFIXES && base != ""
    ensures Apply("", level) != Apply(base, suffix)
  {
    LastChars(suffix);
    Known(level);
    LastChars(level);
    var id := Apply("", level);
    if id == Apply(base, suffix) && suffix != level {
      OwnSuffix(base, suffix);
      OtherSuffix("", level, suffix);
    }
  }

  lemma RuleOnClone(caps: Table, kind: string, models: seq<string>, id: string)
    requires id !in models
    ensures var p := Split(id);
            ListedTarget(caps, kind, models, id)
            <==> p.found && Level(p.suffix) && HasModelFamily(models, p.base)
                 && Supports(caps, kind, Base(p.base), models, p.suffix)
  {
    VariantsMeaning(caps, kind, Base(Split(id).base), models);
  }

  /** How a clone is read back. */
  lemma CloneParts(base: string, level: string)
    requires Level(level)
    ensures var p := Split(Apply(base, level));
            if ReadsBack(base, level) then p == Parts(base, level, true)
            else if base == "" then (if level == "extra-low" then p == Parts("-extra", "low", true) else !p.found)
            else if base == "extra" then !p.found
            else level == "low" && |base| > 6 && p == Parts(base[..|base| - 6], "extra-low", true)
  {
    if ReadsBack(base, level) {
      RoundTrip(base, level);
    } else if base == "" {
      EmptyBase(level);
    } else if base == "extra" {
      ExtraLowIsLevel();
    } else {
      SplitsExtraLow(base);
      assert Apply(base, "low") == base + "-low";
    }
  }

  lemma KnownLevels()
    ensures Level("low") && Level("high") && Level("extra-low")
  {
    assert LEVELS[0] == "extra-low" && LEVELS[4] == "high" && LEVELS[5] == "low";
  }

  /** Exactly which clones the target rule accepts. */
  lemma CloneAcceptedIff(caps: Table, kind: string, models: seq<string>, model: string, level: string)
    requires model in models && Level(level) && Apply(Base(model), level) !in models
    ensures ListedTarget(caps, kind, models, Apply(Base(model), level))
            <==> CloneFits(caps, kind, models, Base(model), level)
  {
    RuleOnClone(caps, kind, models, Apply(Base(model), level));
    CloneParts(Base(model), level);
    KnownLevels();
  }

  /** The families picked from carry no suffix of their own and cannot be half of extra-low. */
  predicate PlainFamilies(models: seq<string>) {
    forall id :: id in models ==> PlainFamily(Base(id))
  }

  predicate PlainFamily(base: string) {
    base != "" && !Split(base).found && base != "extra" && !HasSuffix(base, "-extra")
  }

  lemma PlainFamilyFits(caps: Table, kind: string, models: seq<string>, base: string, level: string)
    requires PlainFamily(base) && Level(level) && level in Variants(caps, kind, base, Families(models))
    ensures CloneFits(caps, kind, models, base, level)
  {
    SplitSpells(base);
    VariantsMeaning(caps, kind, base, models);
  }

  lemma CloneIdsMeaning(base: string, levels: seq<string>, id: string)
    ensures id in CloneIds(base, levels) <==> exists i :: 0 <= i < |levels| && id == Apply(base, levels[i])
  {
    if i :| 0 <= i < |levels| && id == Apply(base, levels[i]) {
      assert CloneIds(base, levels)[i] == id;
    }
  }

  lemma CloneByLevel(caps: Table, kind: string, models: seq<string>, model: string, level: string)
    requires level in Variants(caps, kind, Base(model), Families(models))
    ensures Apply(Base(model), level) in ClonesOf(caps, kind, models, model)
  {
    CloneIdsMeaning(Base(model), Variants(caps, kind, Base(model), Families(models)), Apply(Base(model), level));
  }

  lemma LevelOfClone(caps: Table, kind: string, models: seq<string>, model: string, id: string) returns (level: string)
    requires id in ClonesOf(caps, kind, models, model)
    ensures level in Variants(caps, kind, Base(model), Families(models)) && Level(level)
    ensures id == Apply(Base(model), level)
  {
    var levels := Variants(caps, kind, Base(model), Families(models));
    CloneIdsMeaning(Base(model), levels, id);
    var i :| 0 <= i < |levels| && id == Apply(Base(model), levels[i]);
    level := levels[i];
    VariantsMeaning(caps, kind, Base(model), models);
  }

  /** Every id the picker offers is accepted as a target on the same catalog. */
  lemma OfferedIsAccepted(caps: Table, kind: string, models: seq<string>, id: string)
    requires PlainFamilies(models)
    requires id in Ids(Offers(ClonesIn(caps, kind, models), models, |models|))
    ensures ListedTarget(caps, kind, models, id)
  {
    PickerMeaning(ClonesIn(caps, kind, models), models);
    if id !in models {
      var model :| model in models && id in ClonesOf(caps, kind, models, model);
      var level := LevelOfClone(caps, kind, models, model, id);
      PlainFamilyFits(caps, kind, models, Base(model), level);
      CloneAcceptedIff(caps, kind, models, model, level);
    }
  }

  /** A clone of a listed model that the picker adds and the rule can judge. */
  predicate AddedClone(caps: Table, kind: string, models: seq<string>, model: string, level: string) {
    && model in models
    && level in Variants(caps, kind, Base(model), Families(models))
    && Apply(Base(model), level) !in models
  }

  /** And without that condition, exactly when every clone fits. */
  lemma AllOfferedAcceptedIff(caps: Table, kind: string, models: seq<string>)
    ensures (forall id :: id in Ids(Offers(ClonesIn(caps, kind, models), models, |models|))
                          ==> ListedTarget(caps, kind, models, id))
            <==> (forall model, level :: AddedClone(caps, kind, models, model, level)
                                         ==> CloneFits(caps, kind, models, Base(model), level))
  {
    var clones := ClonesIn(caps, kind, models);
    PickerMeaning(clones, models);
    forall model, level | AddedClone(caps, kind, models, model, level)
      ensures Apply(Base(model), level) in Ids(Offers(clones, models, |models|))
      ensures ListedTarget(caps, kind, models, Apply(Base(model), level))
              <==> CloneFits(caps, kind, models, Base(model), level)
    {
      VariantsMeaning(caps, kind, Base(model), models);
      CloneByLevel(caps, kind, models, model, level);
      CloneAcceptedIff(caps, kind, models, model, level);
    }
    forall id | id in Ids(Offers(clones, models, |models|)) && id !in models
      ensures exists model, level :: AddedClone(caps, kind, models, model, level) && id == Apply(Base(model), level)
    {
      var model :| model in models && id in clones(model);
      var level := LevelOfClone(caps, kind, models, model, id);
      assert AddedClone(caps, kind, models, model, level);
    }
  }

  /** A clone of the only listed model is offered; whether it is accepted, CloneFits says. */
  lemma OneFamily(caps: Table, base: string, level: string)
    requires base != "" && level in ANTIGRAVITY_LEVELS && level != "high"
    ensures var models := [Apply(base, "high")];
            && Apply(base, level) in Ids(Offers(ClonesIn(caps, "antigravity", models), models, 1))
            && (ListedTarget(caps, "antigravity", models, Apply(base, level))
                <==> CloneFits(caps, "antigravity", models, base, level))
  {
    var model := Apply(base, "high");
    var models := [model];
    KnownLevels();
    Known("high");
    ReadsBackSuffices(base, "high");
    assert IsVariant(model) && model in models && Base(model) == base;
    AntigravityLevels();
    assert Apply(base, level)[|base| + 1..] == level && model[|base| + 1..] == "high";
    CloneByLevel(caps, "antigravity", models, model, level);
    PickerMeaning(ClonesIn(caps, "antigravity", models), models);
    CloneAcceptedIff(caps, "antigravity", models, model, level);
  }

  /** A family that still carries a capability marker, as m-thinking-high does: the picker
      offers m-thinking-low, and the rule looks for the family m. */
  lemma MarkedFamilyIsRejected(caps: Table, m: string, marker: string)
    requires m != "" && (marker == SUFFIXES[7] || marker == SUFFIXES[8])
    ensures var models, clone := [Apply(Apply(m, marker), "high")], Apply(Apply(m, marker), "low");
            && clone in Ids(Offers(ClonesIn(caps, "antigravity", models), models, 1))
            && !ListedTarget(caps, "antigravity", models, clone)
  {
    var base := Apply(m, marker);
    assert "low" == ANTIGRAVITY_LEVELS[0];
    OneFamily(caps, base, "low");
    KnownLevels();
    Known("high");
    ReadsBackSuffices(m, marker);
    ReadsBackSuffices(base, "high");
    assert base[|base| - 1] == marker[|marker| - 1];
  }

  /** The family extra: its clone extra-low is itself a level, and so has no base. */
  lemma ExtraIsRejected(caps: Table)
    ensures var models := ["extra-high"];
            && "extra-low" in Ids(Offers(ClonesIn(caps, "antigravity", models), models, 1))
            && !ListedTarget(caps, "antigravity", models, "extra-low")
  {
    assert "low" == ANTIGRAVITY_LEVELS[0];
    OneFamily(caps, "extra", "low");
    assert Apply("extra", "low") == "extra-low" && Apply("extra", "high") == "extra-high";
  }
}
