/** Providers, combos and the two rules that judge a combo's targets: Validate, over active plus
    disabled models, and PruneComboTargets, over the active ones (internal/config/config.go:108-165,
    380-475 and internal/config/mutate.go:46-97). Duration strings are not part of the model. */
module Config {
  import opened Bytes
  import Effort
  import opened Picker

  datatype Provider = Provider(name: string, kind: string, models: seq<string>, disabled: seq<string>)

  datatype Target = Target(provider: string, model: string)

  datatype Combo = Combo(name: string, strategy: string, targets: seq<Target>, routes: seq<string>)

  const KINDS: set<string> :=
    {"openai", "antigravity", "codex", "muse", "codebuddy", "codebuddy-cn", "codebuddy-intl", "opencode"}
  const STRATEGIES: set<string> := {"priority", "fill-first", "reliable", "round-robin", "smart"}

  predicate Smart(cb: Combo) { cb.strategy == "smart" }

  /** What the rules below take as given: which models a catalog accepts as a target, and whether
      a smart combo's routes resolve in a configuration. */
  datatype Rules = Rules(listed: (string, seq<string>, string) -> bool,
                         routes: (Combo, seq<Combo>, map<string, Provider>) -> bool)

  /** A catalog that grows accepts no fewer targets. */
  ghost predicate Monotone(rules: Rules) {
    forall kind, small, large, model ::
      (forall id :: id in small ==> id in large) && rules.listed(kind, small, model) ==> rules.listed(kind, large, model)
  }

  /** The picker's rule, for any capability table. */
  function PickerRules(caps: Table, routes: (Combo, seq<Combo>, map<string, Provider>) -> bool): (rules: Rules)
    ensures Monotone(rules)
  {
    var rules := Rules((kind, catalog, model) => ListedTarget(caps, kind, catalog, model), routes);
    PickerIsMonotone(caps, rules);
    rules
  }

  lemma PickerIsMonotone(caps: Table, rules: Rules)
    requires rules.listed == ((kind, catalog, model) => ListedTarget(caps, kind, catalog, model))
    ensures Monotone(rules)
  {
    forall kind, small: seq<string>, large: seq<string>, model |
      (forall id :: id in small ==> id in large) && rules.listed(kind, small, model)
      ensures rules.listed(kind, large, model)
    {
      ListedTargetMonotone(caps, kind, small, large, model);
    }
  }

  // ---------------------------------------------------------------- lists

  function Filter<T>(s: seq<T>, keep: T -> bool): seq<T> {
    if s == [] then []
    else if keep(s[|s| - 1]) then Filter(s[..|s| - 1], keep) + [s[|s| - 1]]
    else Filter(s[..|s| - 1], keep)
  }

  lemma {:induction false} FilterMeaning<T>(s: seq<T>, keep: T -> bool)
    ensures forall x :: x in Filter(s, keep) <==> x in s && keep(x)
    ensures |Filter(s, keep)| <= |s|
    ensures (forall x :: x in s ==> keep(x)) ==> Filter(s, keep) == s
    ensures (forall x :: x in s ==> !keep(x)) ==> Filter(s, keep) == []
  {
    if s != [] {
      FilterMeaning(s[..|s| - 1], keep);
      assert s == s[..|s| - 1] + [s[|s| - 1]];
    }
  }

  predicate DistinctBy<T(!new)>(s: seq<T>, key: T -> string) {
    forall i, j :: 0 <= i < j < |s| ==> key(s[i]) != key(s[j])
  }

  lemma {:induction false} FilterDistinct<T(!new)>(s: seq<T>, keep: T -> bool, key: T -> string)
    requires DistinctBy(s, key)
    ensures DistinctBy(Filter(s, keep), key)
  {
    if s != [] {
      var front, last := s[..|s| - 1], s[|s| - 1];
      FilterDistinct(front, keep, key);
      FilterMeaning(front, keep);
      forall x | x in Filter(front, keep)
        ensures key(x) != key(last)
      {
        var i :| 0 <= i < |front| && front[i] == x;
      }
    }
  }

  // ---------------------------------------------------------------- validation

  predicate NotEmpty(m: string) { m != "" }

  /** A provider's full id set: active plus disabled models. */
  function Catalog(p: Provider): seq<string> {
    Filter(p.models, NotEmpty) + Filter(p.disabled, NotEmpty)
  }

  function ProviderName(p: Provider): string { p.name }

  function ComboName(cb: Combo): string { cb.name }

  function TargetKey(t: Target): string { t.provider + "\0" + t.model }

  predicate ProviderOk(p: Provider) { p.name != "" && p.kind in KINDS && "" !in p.models }

  predicate ProvidersOk(ps: seq<Provider>) {
    DistinctBy(ps, ProviderName) && forall i :: 0 <= i < |ps| ==> ProviderOk(ps[i])
  }

  /** Providers by name; a later one replaces an earlier one. */
  function Known(ps: seq<Provider>): map<string, Provider> {
    if ps == [] then map[] else Known(ps[..|ps| - 1])[ps[|ps| - 1].name := ps[|ps| - 1]]
  }

  /** A target Validate accepts; a catalog not fetched yet cannot reject it. */
  predicate TargetOk(rules: Rules, known: map<string, Provider>, t: Target) {
    && t.provider != "" && t.model != ""
    && t.provider in known
    && var p := known[t.provider];
       Catalog(p) == [] || rules.listed(p.kind, Catalog(p), t.model)
  }

  predicate TargetsOk(rules: Rules, known: map<string, Provider>, ts: seq<Target>) {
    DistinctBy(ts, TargetKey) && forall i :: 0 <= i < |ts| ==> TargetOk(rules, known, ts[i])
  }

  predicate ComboOk(rules: Rules, all: seq<Combo>, known: map<string, Provider>, cb: Combo) {
    && cb.name != "" && cb.strategy in STRATEGIES
    && if Smart(cb) then rules.routes(cb, all, known)
       else cb.targets != [] && cb.routes == [] && TargetsOk(rules, known, cb.targets)
  }

  predicate CombosOk(rules: Rules, all: seq<Combo>, known: map<string, Provider>, cs: seq<Combo>) {
    DistinctBy(cs, ComboName) && forall i :: 0 <= i < |cs| ==> ComboOk(rules, all, known, cs[i])
  }

  predicate Valid(rules: Rules, ps: seq<Provider>, cs: seq<Combo>) {
    ProvidersOk(ps) && CombosOk(rules, cs, Known(ps), cs)
  }

  /** Which entry Validate reports: the first one that breaks the list. */
  datatype Fault = ProviderFault(at: nat) | ComboFault(at: nat)

  predicate FirstFault(rules: Rules, ps: seq<Provider>, cs: seq<Combo>, f: Fault) {
    match f
    case ProviderFault(i) => i < |ps| && ProvidersOk(ps[..i]) && !ProvidersOk(ps[..i + 1])
    case ComboFault(i) =>
      && ProvidersOk(ps) && i < |cs|
      && CombosOk(rules, cs, Known(ps), cs[..i]) && !CombosOk(rules, cs, Known(ps), cs[..i + 1])
  }

  // ---------------------------------------------------------------- pruning

  /** A target that pruning keeps. */
  predicate Keeps(rules: Rules, known: map<string, Provider>, t: Target) {
    && t.provider in known
    && var p := known[t.provider];
       p.models == [] || rules.listed(p.kind, p.models, t.model)
  }

  function PrunedTargets(rules: Rules, known: map<string, Provider>, ts: seq<Target>): seq<Target> {
    Filter(ts, t => Keeps(rules, known, t))
  }

  /** What one combo becomes: a combo left without targets goes, a smart one stays. */
  function Left(rules: Rules, known: map<string, Provider>, cb: Combo): Option<Combo> {
    if Smart(cb) then Some(cb)
    else
      var targets := PrunedTargets(rules, known, cb.targets);
      if targets == [] then None else Some(cb.(targets := targets))
  }

  function Pruned(rules: Rules, known: map<string, Provider>, cs: seq<Combo>): seq<Combo> {
    if cs == [] then []
    else
      var before := Pruned(rules, known, cs[..|cs| - 1]);
      match Left(rules, known, cs[|cs| - 1])
      case None => before
      case Some(cb) => before + [cb]
  }

  lemma TargetsMeaning(rules: Rules, known: map<string, Provider>, ts: seq<Target>)
    ensures forall t :: t in PrunedTargets(rules, known, ts) <==> t in ts && Keeps(rules, known, t)
    ensures (forall t :: t in ts ==> Keeps(rules, known, t)) ==> PrunedTargets(rules, known, ts) == ts
    ensures DistinctBy(ts, TargetKey) ==> DistinctBy(PrunedTargets(rules, known, ts), TargetKey)
  {
    FilterMeaning(ts, t => Keeps(rules, known, t));
    if DistinctBy(ts, TargetKey) {
      FilterDistinct(ts, t => Keeps(rules, known, t), TargetKey);
    }
  }

  /** Exactly the rejected targets go: what is left is a combo of before with the targets that
      pass, in order; and every combo with a passing target is left. */
  lemma {:induction false} PrunedMeaning(rules: Rules, known: map<string, Provider>, cs: seq<Combo>)
    ensures forall c :: c in Pruned(rules, known, cs) <==> exists cb :: cb in cs && Left(rules, known, cb) == Some(c)
  {
    if cs != [] {
      var front, last := cs[..|cs| - 1], cs[|cs| - 1];
      PrunedMeaning(rules, known, front);
      assert cs == front + [last];
      forall c
        ensures c in Pruned(rules, known, cs) <==> exists cb :: cb in cs && Left(rules, known, cb) == Some(c)
      {
        assert c in Pruned(rules, known, cs) <==> c in Pruned(rules, known, front) || Left(rules, known, last) == Some(c);
      }
    }
  }

  /** Combos keep their names and order, so distinct names stay distinct. */
  lemma {:induction false} PrunedDistinct(rules: Rules, known: map<string, Provider>, cs: seq<Combo>)
    requires DistinctBy(cs, ComboName)
    ensures DistinctBy(Pruned(rules, known, cs), ComboName)
  {
    if cs != [] {
      var front, last := cs[..|cs| - 1], cs[|cs| - 1];
      PrunedDistinct(rules, known, front);
      PrunedMeaning(rules, known, front);
      forall c | c in Pruned(rules, known, front)
        ensures c.name != last.name
      {
        var cb :| cb in front && Left(rules, known, cb) == Some(c);
        var i :| 0 <= i < |front| && front[i] == cb;
        assert cs[i].name == ComboName(cs[i]) && last.name == ComboName(cs[|cs| - 1]);
      }
    }
  }

  /** Pruning a combo list none of whose targets is rejected changes nothing. */
  lemma {:induction false} PrunedFixed(rules: Rules, known: map<string, Provider>, cs: seq<Combo>)
    ensures Pruned(rules, known, cs) == cs <==> forall cb :: cb in cs ==> Left(rules, known, cb) == Some(cb)
  {
    if cs != [] {
      var front, last := cs[..|cs| - 1], cs[|cs| - 1];
      PrunedFixed(rules, known, front);
      PrunedShorter(rules, known, front);
      assert cs == front + [last];
      if Pruned(rules, known, cs) == cs {
        var c := Left(rules, known, last);
        assert c.Some?;
        assert (Pruned(rules, known, front) + [c.value])[..|front|] == front;
      }
    }
  }

  lemma {:induction false} PrunedShorter(rules: Rules, known: map<string, Provider>, cs: seq<Combo>)
    ensures |Pruned(rules, known, cs)| <= |cs|
  {
    if cs != [] {
      PrunedShorter(rules, known, cs[..|cs| - 1]);
    }
  }

  lemma LeftAgain(rules: Rules, known: map<string, Provider>, cb: Combo)
    ensures var left := Left(rules, known, cb);
            left.Some? ==> Left(rules, known, left.value) == left
  {
    if !Smart(cb) {
      TargetsMeaning(rules, known, cb.targets);
      TargetsMeaning(rules, known, PrunedTargets(rules, known, cb.targets));
    }
  }

  /** Pruning twice is pruning once. */
  lemma PruneIsIdempotent(rules: Rules, known: map<string, Provider>, cs: seq<Combo>)
    ensures Pruned(rules, known, Pruned(rules, known, cs)) == Pruned(rules, known, cs)
  {
    PrunedMeaning(rules, known, cs);
    forall c | c in Pruned(rules, known, cs)
      ensures Left(rules, known, c) == Some(c)
    {
      var cb :| cb in cs && Left(rules, known, cb) == Some(c);
      LeftAgain(rules, known, cb);
    }
    PrunedFixed(rules, known, Pruned(rules, known, cs));
  }

  // ---------------------------------------------------------------- a refreshed catalog

  predicate NoSmart(cs: seq<Combo>) { forall cb :: cb in cs ==> !Smart(cb) }

  /** The models of a fetched list that are not disabled. */
  function Active(p: Provider, models: seq<string>): seq<string> { Filter(models, m => m !in p.disabled) }

  function Refreshed(ps: seq<Provider>, i: nat, models: seq<string>): seq<Provider>
    requires i < |ps|
  {
    ps[i := ps[i].(models := Active(ps[i], models))]
  }

  predicate Names(ps: seq<Provider>, i: nat, name: string, p: Provider) { i < |ps| && ps[i] == p && p.name == name }

  lemma {:induction false} KnownIsThere(ps: seq<Provider>, name: string)
    requires name in Known(ps)
    ensures exists i :: Names(ps, i, name, Known(ps)[name])
  {
    var front, last := ps[..|ps| - 1], ps[|ps| - 1];
    if name == last.name {
      assert Names(ps, |front|, name, Known(ps)[name]);
    } else {
      KnownIsThere(front, name);
      var i :| Names(front, i, name, Known(front)[name]);
      assert Names(ps, i, name, Known(ps)[name]);
    }
  }

  lemma {:induction false} ThereIsKnown(ps: seq<Provider>, i: nat)
    requires i < |ps|
    ensures ps[i].name in Known(ps)
    ensures DistinctBy(ps, ProviderName) ==> Known(ps)[ps[i].name] == ps[i]
  {
    var front, last := ps[..|ps| - 1], ps[|ps| - 1];
    if i < |front| {
      ThereIsKnown(front, i);
      assert front[i] == ps[i];
      assert DistinctBy(ps, ProviderName) ==> ProviderName(ps[i]) != ProviderName(ps[|ps| - 1]);
    }
  }

  lemma KnownMeaning(ps: seq<Provider>)
    ensures forall name :: name in Known(ps) ==> exists i :: 0 <= i < |ps| && ps[i] == Known(ps)[name] && ps[i].name == name
    ensures forall i :: 0 <= i < |ps| ==> ps[i].name in Known(ps)
    ensures DistinctBy(ps, ProviderName) ==> forall i :: 0 <= i < |ps| ==> Known(ps)[ps[i].name] == ps[i]
  {
    forall name | name in Known(ps)
      ensures exists i :: 0 <= i < |ps| && ps[i] == Known(ps)[name] && ps[i].name == name
    {
      KnownIsThere(ps, name);
      var i :| Names(ps, i, name, Known(ps)[name]);
    }
    forall i | 0 <= i < |ps|
      ensures ps[i].name in Known(ps)
      ensures DistinctBy(ps, ProviderName) ==> Known(ps)[ps[i].name] == ps[i]
    {
      ThereIsKnown(ps, i);
    }
  }

  lemma RefreshedNames(ps: seq<Provider>, i: nat, models: seq<string>)
    requires i < |ps|
    ensures DistinctBy(Refreshed(ps, i, models), ProviderName) <==> DistinctBy(ps, ProviderName)
  {
    var qs := Refreshed(ps, i, models);
    assert forall j :: 0 <= j < |ps| ==> ProviderName(qs[j]) == ProviderName(ps[j]);
  }

  lemma RefreshedProvidersOk(ps: seq<Provider>, i: nat, models: seq<string>)
    requires i < |ps| && ProvidersOk(ps)
    ensures ProvidersOk(Refreshed(ps, i, models)) <==> "" !in Active(ps[i], models)
  {
    var qs := Refreshed(ps, i, models);
    RefreshedNames(ps, i, models);
    assert ProviderOk(qs[i]) <==> "" !in Active(ps[i], models);
    assert forall j :: 0 <= j < |ps| && j != i ==> qs[j] == ps[j];
  }

  lemma {:induction false} KnownUpdate(ps: seq<Provider>, i: nat, q: Provider)
    requires i < |ps| && DistinctBy(ps, ProviderName) && q.name == ps[i].name
    ensures Known(ps[i := q]) == Known(ps)[q.name := q]
  {
    var front, last, qs := ps[..|ps| - 1], ps[|ps| - 1], ps[i := q];
    if i < |front| {
      KnownUpdate(front, i, q);
      assert qs[..|qs| - 1] == front[i := q] && qs[|qs| - 1] == last;
      assert ProviderName(ps[i]) != ProviderName(ps[|ps| - 1]);
    } else {
      assert qs[..|qs| - 1] == front;
    }
  }

  /** Only the refreshed provider's entry changes. */
  lemma RefreshedKnown(ps: seq<Provider>, i: nat, models: seq<string>)
    requires i < |ps| && DistinctBy(ps, ProviderName)
    ensures var q := Refreshed(ps, i, models)[i];
            Known(Refreshed(ps, i, models)) == Known(ps)[q.name := q] && q.name in Known(ps)
            && Known(ps)[q.name] == ps[i]
  {
    KnownUpdate(ps, i, Refreshed(ps, i, models)[i]);
    KnownMeaning(ps);
  }

  lemma CatalogMeaning(p: Provider)
    requires "" !in p.models
    ensures forall id :: id in p.models ==> id in Catalog(p)
    ensures p.models == [] ==> Catalog(p) == Filter(p.disabled, NotEmpty)
  {
    FilterMeaning(p.models, NotEmpty);
  }

  /** What a provider without active models must still list. */
  predicate Lists(rules: Rules, q: Provider, t: Target) {
    t.provider == q.name && q.models == [] && Catalog(q) != [] ==> rules.listed(q.kind, Catalog(q), t.model)
  }

  /** A target that was valid and survives pruning is valid again, unless its own provider lost
      its active models to disabled ones that do not list it. */
  lemma KeptIsOk(rules: Rules, ps: seq<Provider>, i: nat, models: seq<string>, t: Target)
    requires Monotone(rules) && i < |ps| && ProvidersOk(ps) && TargetOk(rules, Known(ps), t)
    requires "" !in Active(ps[i], models)
    requires Keeps(rules, Known(Refreshed(ps, i, models)), t)
    ensures TargetOk(rules, Known(Refreshed(ps, i, models)), t) <==> Lists(rules, Refreshed(ps, i, models)[i], t)
  {
    var qs := Refreshed(ps, i, models);
    RefreshedKnown(ps, i, models);
    KnownMeaning(ps);
    var q := Known(qs)[t.provider];
    assert "" !in q.models;
    CatalogMeaning(q);
  }

  /** What the refreshed provider still needs from the targets that name it: nothing if it has
      active models or no models at all, else to be listed among the disabled ones. */
  predicate Covers(rules: Rules, q: Provider, cs: seq<Combo>) {
    || q.models != []
    || Catalog(q) == []
    || forall cb, t :: cb in cs && t in cb.targets && t.provider == q.name ==> rules.listed(q.kind, Catalog(q), t.model)
  }

  lemma LeftIsOk(rules: Rules, was: map<string, Provider>, known: map<string, Provider>, q: Provider,
                 all: seq<Combo>, next: seq<Combo>, cb: Combo)
    requires !Smart(cb) && ComboOk(rules, all, was, cb)
    requires q.name in known && known[q.name] == q
    requires forall t :: t in cb.targets && Keeps(rules, known, t) ==> (TargetOk(rules, known, t) <==> Lists(rules, q, t))
    ensures var left := Left(rules, known, cb);
            (left.Some? ==> ComboOk(rules, next, known, left.value)) <==> forall t :: t in cb.targets ==> Lists(rules, q, t)
  {
    TargetsMeaning(rules, known, cb.targets);
    var kept := PrunedTargets(rules, known, cb.targets);
    assert TargetsOk(rules, known, kept) <==> forall t :: t in kept ==> TargetOk(rules, known, t);
    // A provider without active models keeps every target that names it.
    forall t | t in cb.targets && !Lists(rules, q, t)
      ensures t in kept
    {
      assert Keeps(rules, known, t);
    }
  }

  /** Refreshing a provider's models in a valid configuration without smart combos and pruning
      gives a valid configuration exactly when no active id is empty and the refreshed provider
      still covers the targets that name it. */
  lemma RefreshStaysValidIff(rules: Rules, ps: seq<Provider>, cs: seq<Combo>, i: nat, models: seq<string>)
    requires Monotone(rules) && i < |ps| && Valid(rules, ps, cs) && NoSmart(cs)
    ensures var qs := Refreshed(ps, i, models);
            Valid(rules, qs, Pruned(rules, Known(qs), cs))
            <==> "" !in Active(ps[i], models) && Covers(rules, qs[i], cs)
  {
    var qs := Refreshed(ps, i, models);
    var known, q := Known(qs), qs[i];
    var next := Pruned(rules, known, cs);
    RefreshedProvidersOk(ps, i, models);
    if "" !in Active(ps[i], models) {
      PrunedMeaning(rules, known, cs);
      PrunedDistinct(rules, known, cs);
      forall cb | cb in cs
        ensures var left := Left(rules, known, cb);
                (left.Some? ==> ComboOk(rules, next, known, left.value))
                <==> forall t :: t in cb.targets ==> Lists(rules, q, t)
      {
        OldIsOk(rules, ps, cs, i, models, cb);
        LeftIsOk(rules, Known(ps), known, q, cs, next, cb);
      }
      OkEach(rules, known, next);
      assert CombosOk(rules, next, known, next) <==> Covers(rules, q, cs) by {
        forall cb | cb in cs && Left(rules, known, cb).Some?
          ensures Left(rules, known, cb).value in next
        {
        }
      }
    }
  }

  lemma OldIsOk(rules: Rules, ps: seq<Provider>, cs: seq<Combo>, i: nat, models: seq<string>, cb: Combo)
    requires Monotone(rules) && i < |ps| && Valid(rules, ps, cs) && cb in cs && !Smart(cb)
    requires "" !in Active(ps[i], models)
    ensures ComboOk(rules, cs, Known(ps), cb)
    ensures var qs := Refreshed(ps, i, models);
            && qs[i].name in Known(qs) && Known(qs)[qs[i].name] == qs[i]
            && forall t :: t in cb.targets && Keeps(rules, Known(qs), t)
                           ==> (TargetOk(rules, Known(qs), t) <==> Lists(rules, qs[i], t))
  {
    OkEach(rules, Known(ps), cs);
    RefreshedKnown(ps, i, models);
    TargetsKept(rules, ps, i, models, cb.targets);
  }

  lemma TargetsKept(rules: Rules, ps: seq<Provider>, i: nat, models: seq<string>, ts: seq<Target>)
    requires Monotone(rules) && i < |ps| && ProvidersOk(ps) && TargetsOk(rules, Known(ps), ts)
    requires "" !in Active(ps[i], models)
    ensures forall t :: t in ts && Keeps(rules, Known(Refreshed(ps, i, models)), t)
                        ==> (TargetOk(rules, Known(Refreshed(ps, i, models)), t) <==> Lists(rules, Refreshed(ps, i, models)[i], t))
  {
    forall t | t in ts && Keeps(rules, Known(Refreshed(ps, i, models)), t)
      ensures TargetOk(rules, Known(Refreshed(ps, i, models)), t) <==> Lists(rules, Refreshed(ps, i, models)[i], t)
    {
      KeptIsOk(rules, ps, i, models, t);
    }
  }

  lemma OkEach(rules: Rules, known: map<string, Provider>, cs: seq<Combo>)
    ensures CombosOk(rules, cs, known, cs)
            <==> DistinctBy(cs, ComboName) && forall c :: c in cs ==> ComboOk(rules, cs, known, c)
  {
  }

  /** In particular: no empty id, and active models left or none disabled. */
  lemma RefreshStaysValid(rules: Rules, ps: seq<Provider>, cs: seq<Combo>, i: nat, models: seq<string>)
    requires Monotone(rules) && i < |ps| && Valid(rules, ps, cs) && NoSmart(cs)
    requires "" !in models
    requires Active(ps[i], models) != [] || ps[i].disabled == []
    ensures var qs := Refreshed(ps, i, models);
            Valid(rules, qs, Pruned(rules, Known(qs), cs))
  {
    FilterMeaning(models, m => m !in ps[i].disabled);
    RefreshStaysValidIff(rules, ps, cs, i, models);
  }

  /** When every fetched model is a disabled one, the targets that named the old models stay and
      the catalog of disabled models no longer lists them. */
  lemma AllDisabledBreaks(rules: Rules, kind: string, a: string, b: string)
    requires Monotone(rules) && kind in KINDS && a != "" && b != ""
    requires rules.listed(kind, [a, b], a) && !rules.listed(kind, [b], a)
    ensures var ps := [Provider("p", kind, [a], [b])];
            var cs := [Combo("c", "priority", [Target("p", a)], [])];
            && Valid(rules, ps, cs) && NoSmart(cs)
            && !Valid(rules, Refreshed(ps, 0, [b]), Pruned(rules, Known(Refreshed(ps, 0, [b])), cs))
  {
    var t, p := Target("p", a), Provider("p", kind, [a], [b]);
    var cb := Combo("c", "priority", [t], []);
    OneTargetIsValid(rules, p, cb, t);
    OnlyDisabledLeft(p, b);
    var q := Refreshed([p], 0, [b])[0];
    NotCovered(rules, q, cb, t);
    RefreshStaysValidIff(rules, [p], [cb], 0, [b]);
  }

  lemma OnlyDisabledLeft(p: Provider, b: string)
    requires p.disabled == [b] && b != ""
    ensures Refreshed([p], 0, [b])[0] == p.(models := []) && Catalog(p.(models := [])) == [b]
  {
    FilterMeaning([b], m => m !in p.disabled);
  }

  lemma NotCovered(rules: Rules, q: Provider, cb: Combo, t: Target)
    requires t in cb.targets && !Lists(rules, q, t)
    ensures !Covers(rules, q, [cb])
  {
    assert cb in [cb];
  }

  lemma OneTargetIsValid(rules: Rules, p: Provider, cb: Combo, t: Target)
    requires ProviderOk(p) && cb == Combo("c", "priority", [t], []) && t.provider == p.name && t.model != ""
    requires rules.listed(p.kind, p.models + p.disabled, t.model) && "" !in p.models + p.disabled
    ensures Valid(rules, [p], [cb]) && NoSmart([cb])
  {
    FilterMeaning(p.models, NotEmpty);
    FilterMeaning(p.disabled, NotEmpty);
    assert Known([p]) == map[p.name := p];
    assert TargetsOk(rules, Known([p]), [t]);
  }

  lemma PickerCanBreak(caps: Table, kind: string)
    ensures ListedTarget(caps, kind, ["a", "b"], "a") && !ListedTarget(caps, kind, ["b"], "a")
  {
    Effort.SplitSpells("a");
    var parts := Effort.Split("a");
    if parts.found {
      Effort.LastChars(parts.suffix);
    }
  }

  /** It happens under the picker's own rule, for every capability table, route test and kind of
      provider. */
  lemma PickerRefreshBreaks(caps: Table, kind: string, routes: (Combo, seq<Combo>, map<string, Provider>) -> bool)
    requires kind in KINDS
    ensures var rules := PickerRules(caps, routes);
            var ps := [Provider("p", kind, ["a"], ["b"])];
            var cs := [Combo("c", "priority", [Target("p", "a")], [])];
            && Valid(rules, ps, cs) && NoSmart(cs)
            && !Valid(rules, Refreshed(ps, 0, ["b"]), Pruned(rules, Known(Refreshed(ps, 0, ["b"])), cs))
  {
    PickerCanBreak(caps, kind);
    AllDisabledBreaks(PickerRules(caps, routes), kind, "a", "b");
  }

  /** Where nothing is disabled, pruning a valid configuration drops nothing. */
  lemma ValidSurvivesPruning(rules: Rules, ps: seq<Provider>, cs: seq<Combo>)
    requires Monotone(rules) && Valid(rules, ps, cs)
    requires forall p :: p in ps ==> p.models == [] || Filter(p.disabled, NotEmpty) == []
    ensures Pruned(rules, Known(ps), cs) == cs
  {
    KnownMeaning(ps);
    forall cb | cb in cs
      ensures Left(rules, Known(ps), cb) == Some(cb)
    {
      var j :| 0 <= j < |cs| && cs[j] == cb;
      if !Smart(cb) {
        TargetsMeaning(rules, Known(ps), cb.targets);
        forall t | t in cb.targets
          ensures Keeps(rules, Known(ps), t)
        {
          var k :| 0 <= k < |cb.targets| && cb.targets[k] == t;
          ValidTargetKept(rules, ps, t);
        }
      }
    }
    PrunedFixed(rules, Known(ps), cs);
  }

  lemma ValidTargetKept(rules: Rules, ps: seq<Provider>, t: Target)
    requires Monotone(rules) && ProvidersOk(ps) && TargetOk(rules, Known(ps), t)
    requires forall p :: p in ps ==> p.models == [] || Filter(p.disabled, NotEmpty) == []
    ensures Keeps(rules, Known(ps), t)
  {
    KnownMeaning(ps);
    var p := Known(ps)[t.provider];
    FilterMeaning(p.models, NotEmpty);
  }

  // ---------------------------------------------------------------- the configuration

  class Config {
    const rules: Rules
    var providers: seq<Provider>
    var combos: seq<Combo>

    constructor (rules: Rules, providers: seq<Provider>, combos: seq<Combo>)
      ensures this.rules == rules && this.providers == providers && this.combos == combos
    {
      this.rules, this.providers, this.combos := rules, providers, combos;
    }

    /** The first provider or combo at fault, none exactly when the configuration is valid. */
    method Validate() returns (fault: Option<Fault>)
      ensures fault.None? <==> Valid(rules, providers, combos)
      ensures fault.Some? ==> FirstFault(rules, providers, combos, fault.value)
    {
      var known: map<string, Provider>;
      fault, known := ValidateProviders();
      if fault.Some? {
        return;
      }
      var seen: set<string> := {};
      for i := 0 to |combos|
        invariant known == Known(providers) && ProvidersOk(providers)
        invariant CombosOk(rules, combos, known, combos[..i])
        invariant forall name :: name in seen <==> exists j :: 0 <= j < i && combos[j].name == name
      {
        var cb := combos[i];
        assert combos[..i + 1] == combos[..i] + [cb];
        CombosSnoc(rules, combos, known, combos[..i], cb);
        assert cb.name in seen <==> exists j :: 0 <= j < i && combos[..i][j].name == cb.name;
        var ok := ValidateCombo(cb, known);
        if cb.name in seen || !ok {
          return Some(ComboFault(i));
        }
        seen := seen + {cb.name};
      }
      assert combos[..|combos|] == combos;
      fault := None;
    }

    method ValidateProviders() returns (fault: Option<Fault>, known: map<string, Provider>)
      ensures fault.None? ==> ProvidersOk(providers) && known == Known(providers)
      ensures fault.Some? ==> !ProvidersOk(providers) && FirstFault(rules, providers, combos, fault.value)
    {
      known := map[];
      for i := 0 to |providers|
        invariant ProvidersOk(providers[..i]) && known == Known(providers[..i])
      {
        var p := providers[i];
        assert providers[..i + 1] == providers[..i] + [p];
        ProvidersSnoc(providers[..i], p);
        KnownMeaning(providers[..i]);
        if p.name == "" || p.name in known || p.kind !in KINDS || "" in p.models {
          if ProvidersOk(providers) {
            ProvidersPrefix(providers, i + 1);
          }
          return Some(ProviderFault(i)), known;
        }
        known := known[p.name := p];
      }
      assert providers[..|providers|] == providers;
      fault := None;
    }

    /** Everything Validate asks of one combo but that its name is new. */
    method ValidateCombo(cb: Combo, known: map<string, Provider>) returns (ok: bool)
      ensures ok <==> ComboOk(rules, combos, known, cb)
    {
      if cb.name == "" || cb.strategy !in STRATEGIES {
        return false;
      }
      if |cb.targets| == 0 && !Smart(cb) {
        return false;
      }
      if Smart(cb) {
        return rules.routes(cb, combos, known);
      }
      if |cb.routes| > 0 {
        return false;
      }
      ok := ValidateTargets(cb.targets, known);
    }

    method ValidateTargets(targets: seq<Target>, known: map<string, Provider>) returns (ok: bool)
      ensures ok <==> TargetsOk(rules, known, targets)
    {
      var seen: set<string> := {};
      for i := 0 to |targets|
        invariant TargetsOk(rules, known, targets[..i])
        invariant forall key :: key in seen <==> exists j :: 0 <= j < i && TargetKey(targets[j]) == key
      {
        var t := targets[i];
        if TargetKey(t) in seen {
          var j :| 0 <= j < i && TargetKey(targets[j]) == TargetKey(t);
          return false;
        }
        seen := seen + {TargetKey(t)};
        if t.provider == "" || t.model == "" || t.provider !in known {
          return false;
        }
        var p := known[t.provider];
        if |Catalog(p)| > 0 && !rules.listed(p.kind, Catalog(p), t.model) {
          return false;
        }
      }
      ok := true;
    }

    /** Drops every target the rule rejects, and the combos left without any. */
    method PruneComboTargets()
      modifies this`combos
      ensures combos == Pruned(rules, Known(providers), old(combos))
    {
      var known: map<string, Provider> := map[];
      for i := 0 to |providers|
        invariant known == Known(providers[..i])
      {
        assert providers[..i + 1][..i] == providers[..i];
        known := known[providers[i].name := providers[i]];
      }
      assert providers[..|providers|] == providers;
      var kept: seq<Combo> := [];
      for i := 0 to |combos|
        invariant combos == old(combos)
        invariant kept == Pruned(rules, known, combos[..i])
      {
        assert combos[..i + 1][..i] == combos[..i];
        var cb := combos[i];
        if Smart(cb) {
          kept := kept + [cb];
          continue;
        }
        var targets := KeptTargets(cb.targets, known);
        if |targets| == 0 {
          continue;
        }
        kept := kept + [cb.(targets := targets)];
      }
      assert combos[..|combos|] == combos;
      combos := kept;
    }

    /** The inner loop. */
    method KeptTargets(ts: seq<Target>, known: map<string, Provider>) returns (targets: seq<Target>)
      ensures targets == PrunedTargets(rules, known, ts)
    {
      targets := [];
      for i := 0 to |ts|
        invariant targets == PrunedTargets(rules, known, ts[..i])
      {
        assert ts[..i + 1][..i] == ts[..i];
        var t := ts[i];
        if t.provider !in known {
          continue;
        }
        var p := known[t.provider];
        if |p.models| == 0 || rules.listed(p.kind, p.models, t.model) {
          targets := targets + [t];
        }
      }
      assert ts[..|ts|] == ts;
    }

    /** Replaces a provider's models by the fetched ones that are not disabled, and prunes. An
        unknown provider is an error that changes nothing. */
    method SetModels(name: string, models: seq<string>) returns (ok: bool, ghost at: nat)
      modifies this
      ensures ok <==> exists i :: 0 <= i < |old(providers)| && old(providers)[i].name == name
      ensures !ok ==> providers == old(providers) && combos == old(combos)
      ensures ok ==> at < |old(providers)| && old(providers)[at].name == name
                     && (forall i :: 0 <= i < at ==> old(providers)[i].name != name)
                     && providers == Refreshed(old(providers), at, models)
                     && combos == Pruned(rules, Known(providers), old(combos))
      ensures ok && Monotone(rules) && old(Valid(rules, providers, combos) && NoSmart(combos)) ==>
                (Valid(rules, providers, combos)
                 <==> "" !in Active(old(providers)[at], models) && Covers(rules, providers[at], old(combos)))
    {
      at := 0;
      for i := 0 to |providers|
        invariant providers == old(providers) && combos == old(combos)
        invariant forall j :: 0 <= j < i ==> providers[j].name != name
      {
        if providers[i].name == name {
          at := i;
          var active := KeepActive(providers[i], models);
          providers := providers[i := providers[i].(models := active)];
          PruneComboTargets();
          if Monotone(rules) && old(Valid(rules, providers, combos) && NoSmart(combos)) {
            RefreshStaysValidIff(rules, old(providers), old(combos), at, models);
          }
          return true, at;
        }
      }
      ok := false;
    }

    method KeepActive(p: Provider, models: seq<string>) returns (active: seq<string>)
      ensures active == Active(p, models)
    {
      active := [];
      for i := 0 to |models|
        invariant active == Active(p, models[..i])
      {
        assert models[..i + 1][..i] == models[..i];
        if models[i] !in p.disabled {
          active := active + [models[i]];
        }
      }
      assert models[..|models|] == models;
    }
  }

  lemma ProvidersSnoc(ps: seq<Provider>, p: Provider)
    ensures ProvidersOk(ps + [p])
            <==> ProvidersOk(ps) && ProviderOk(p) && forall i :: 0 <= i < |ps| ==> ps[i].name != p.name
  {
    DistinctSnoc(ps, p, ProviderName);
    assert ProvidersOk(ps + [p]) ==> forall i :: 0 <= i < |ps| ==> ps[i] == (ps + [p])[i] && ProviderOk(ps[i]);
    assert (ps + [p])[|ps|] == p;
  }

  lemma DistinctSnoc<T(!new)>(s: seq<T>, x: T, key: T -> string)
    ensures DistinctBy(s + [x], key) <==> DistinctBy(s, key) && forall i :: 0 <= i < |s| ==> key(s[i]) != key(x)
  {
    if DistinctBy(s + [x], key) {
      assert forall i :: 0 <= i < |s| ==> (s + [x])[i] == s[i];
      assert (s + [x])[|s|] == x;
    }
  }

  lemma ProvidersPrefix(ps: seq<Provider>, n: nat)
    requires n <= |ps| && ProvidersOk(ps)
    ensures ProvidersOk(ps[..n])
  {
  }

  lemma CombosSnoc(rules: Rules, all: seq<Combo>, known: map<string, Provider>, cs: seq<Combo>, cb: Combo)
    ensures CombosOk(rules, all, known, cs + [cb])
            <==> CombosOk(rules, all, known, cs) && ComboOk(rules, all, known, cb)
                 && forall i :: 0 <= i < |cs| ==> cs[i].name != cb.name
  {
    DistinctSnoc(cs, cb, ComboName);
    var next := cs + [cb];
    assert next[|cs|] == cb && forall i :: 0 <= i < |cs| ==> next[i] == cs[i];
  }
}
