/** The model catalogue kept by the main process: providers, each with a
    display name, an enabled flag and a list of models; preferences such as
    the default provider; and the operations that merge a user override into
    the shipped defaults, list and look up models, parse `provider:model`
    identifiers, and edit providers and models. Reading and writing the JSON
    files is left to the callers: a load is an input here.

    A JavaScript object keyed by provider id is modelled as a sequence of
    (id, provider) pairs in insertion order with distinct ids. Provider
    fields a user override may leave out are `Option`s. */
module Catalog {
  import opened Wrappers
  import opened Text
  import opened JsObject

  datatype ModelEntry = ModelEntry(id: string, name: string, description: string, isDefault: bool)

  datatype Provider = Provider(
    name: Option<string>,
    enabled: Option<bool>,
    models: Option<seq<ModelEntry>>)

  type Providers = seq<(string, Provider)>

  datatype Config = Config(providers: Providers, preferences: map<string, string>)

  /** A user override: either part may be absent. */
  datatype UserConfig = UserConfig(providers: Option<Providers>,
                                   preferences: Option<map<string, string>>)

  /** A model as the listings return it: the entry, tagged with its provider. */
  datatype Listed = Listed(model: ModelEntry, provider: string, providerName: Option<string>,
                           fullId: string)

  /** The error of reading through `models` of a provider that has none
      (the message Electron's JavaScript engine gives, without the name of
      the member read). */
  const ModelsUndefined: string := "TypeError: Cannot read properties of undefined"

  // ----- Provider maps ------------------------------------------------

  function Keys(ps: Providers): (r: seq<string>)
    ensures |r| == |ps|
    ensures forall i :: 0 <= i < |ps| ==> r[i] == ps[i].0
  {
    if |ps| == 0 then [] else [ps[0].0] + Keys(ps[1..])
  }

  predicate UniqueKeys(ps: Providers) {
    forall i, j :: 0 <= i < j < |ps| ==> ps[i].0 != ps[j].0
  }

  /** `providers[id]`: the provider stored under `id`, if any. */
  function Lookup(ps: Providers, id: string): (r: Option<Provider>)
    ensures r.Some? <==> id in Keys(ps)
    ensures r.Some? ==> exists i :: 0 <= i < |ps| && ps[i] == (id, r.value)
  {
    if |ps| == 0 then None
    else if ps[0].0 == id then Some(ps[0].1)
    else Lookup(ps[1..], id)
  }

  /** What `providers[id]` finds: an own entry, a member every object
      inherits (such as `toString`), or nothing. */
  datatype Slot = Own(p: Provider) | Inherited | Missing

  /** `providers[id]` as JavaScript reads it: an own entry first, else an
      inherited member, which is truthy and has no `models`. */
  function Read(ps: Providers, id: string): (r: Slot)
    ensures r.Own? <==> Lookup(ps, id).Some?
    ensures r.Own? ==> r.p == Lookup(ps, id).value
    ensures r.Inherited? <==> Lookup(ps, id).None? && id in PrototypeNames
  {
    match Lookup(ps, id)
    case Some(p) => Own(p)
    case None => if id in PrototypeNames then Inherited else Missing
  }

  /** `providers[id] = p`: replaces the entry in place, or appends it. */
  function Upsert(ps: Providers, id: string, p: Provider): (r: Providers)
    ensures Lookup(r, id) == Some(p)
    ensures forall k :: k != id ==> Lookup(r, k) == Lookup(ps, k)
    ensures id in Keys(ps) ==> Keys(r) == Keys(ps)
    ensures id !in Keys(ps) ==> Keys(r) == Keys(ps) + [id]
  {
    UpsertRecLookup(ps, id, p);
    UpsertRecKeys(ps, id, p);
    UpsertRec(ps, id, p)
  }

  function UpsertRec(ps: Providers, id: string, p: Provider): Providers {
    if |ps| == 0 then [(id, p)]
    else if ps[0].0 == id then [(id, p)] + ps[1..]
    else [ps[0]] + UpsertRec(ps[1..], id, p)
  }

  lemma {:induction false} UpsertRecLookup(ps: Providers, id: string, p: Provider)
    ensures Lookup(UpsertRec(ps, id, p), id) == Some(p)
    ensures forall k :: k != id ==> Lookup(UpsertRec(ps, id, p), k) == Lookup(ps, k)
    decreases |ps|
  {
    var r := UpsertRec(ps, id, p);
    if |ps| > 0 {
      assert r[1..] == (if ps[0].0 == id then ps[1..] else UpsertRec(ps[1..], id, p));
      if ps[0].0 != id {
        UpsertRecLookup(ps[1..], id, p);
      }
    }
  }

  lemma {:induction false} UpsertRecKeys(ps: Providers, id: string, p: Provider)
    ensures id in Keys(ps) ==> Keys(UpsertRec(ps, id, p)) == Keys(ps)
    ensures id !in Keys(ps) ==> Keys(UpsertRec(ps, id, p)) == Keys(ps) + [id]
    decreases |ps|
  {
    var r := UpsertRec(ps, id, p);
    if |ps| > 0 {
      if ps[0].0 == id {
        assert Keys(r) == Keys(ps) by {
          forall i | 0 <= i < |ps| ensures Keys(r)[i] == Keys(ps)[i] {
            if i > 0 { assert r[i] == ps[i]; }
          }
        }
      } else {
        var rest := UpsertRec(ps[1..], id, p);
        UpsertRecKeys(ps[1..], id, p);
        assert r == [ps[0]] + rest;
        assert Keys(r) == [ps[0].0] + Keys(rest) by {
          assert Keys(r)[1..] == Keys(rest) by {
            forall i | 0 <= i < |rest| ensures Keys(r)[1..][i] == Keys(rest)[i] {
              assert r[i + 1] == rest[i];
            }
          }
        }
        assert Keys(ps) == [ps[0].0] + Keys(ps[1..]);
        assert id in Keys(ps) <==> id in Keys(ps[1..]);
      }
    }
  }

  lemma UpsertKeepsUnique(ps: Providers, id: string, p: Provider)
    requires UniqueKeys(ps)
    ensures UniqueKeys(Upsert(ps, id, p))
  {
    var r := Upsert(ps, id, p);
    var kr, kp := Keys(r), Keys(ps);
    forall i, j | 0 <= i < j < |r| ensures r[i].0 != r[j].0 {
      assert kr[i] == r[i].0 && kr[j] == r[j].0;
      if id !in kp && j == |kp| {
        assert kr[i] == kp[i] && kp[i] == ps[i].0;
      } else {
        assert kr[i] == kp[i] && kr[j] == kp[j];
      }
    }
  }

  // ----- mergeConfigs ---------------------------------------------------

  /** A field of `{...d, ...u}`: the user's value when present. */
  function Override<T>(d: Option<T>, u: Option<T>): (r: Option<T>)
    ensures u.Some? ==> r == u
    ensures u.None? ==> r == d
  {
    if u.Some? then u else d
  }

  /** `{...d, ...u}` for providers: user fields win, absent ones fall back. */
  function MergeProvider(d: Provider, u: Provider): (r: Provider)
    ensures r.name == Override(d.name, u.name)
    ensures r.enabled == Override(d.enabled, u.enabled)
    ensures r.models == Override(d.models, u.models)
  {
    Provider(Override(d.name, u.name), Override(d.enabled, u.enabled),
             Override(d.models, u.models))
  }

  /** Merging is idempotent and an empty override changes nothing. */
  lemma MergeProviderLaws(d: Provider, u: Provider)
    ensures MergeProvider(MergeProvider(d, u), u) == MergeProvider(d, u)
    ensures MergeProvider(d, Provider(None, None, None)) == d
    ensures MergeProvider(d, u) == u <==>
      (u.name.Some? || d.name.None?) && (u.enabled.Some? || d.enabled.None?)
      && (u.models.Some? || d.models.None?)
  {
  }

  /** One step of the providers loop: merge into an existing entry, else add. */
  function MergeEntry(merged: Providers, entry: (string, Provider)): Providers {
    match Lookup(merged, entry.0)
    case Some(d) => Upsert(merged, entry.0, MergeProvider(d, entry.1))
    case None => Upsert(merged, entry.0, entry.1)
  }

  function MergeProviders(merged: Providers, user: Providers): Providers
    decreases |user|
  {
    if |user| == 0 then merged else MergeProviders(MergeEntry(merged, user[0]), user[1..])
  }

  /** The provider a merge leaves under `id`. */
  function MergedAt(def: Providers, user: Providers, id: string): Option<Provider> {
    match Lookup(user, id)
    case None => Lookup(def, id)
    case Some(u) =>
      match Lookup(def, id)
      case Some(d) => Some(MergeProvider(d, u))
      case None => Some(u)
  }

  /** One merge step touches only the entry's own id. */
  lemma MergeEntryLookup(merged: Providers, entry: (string, Provider), id: string)
    ensures Lookup(MergeEntry(merged, entry), id)
         == if id != entry.0 then Lookup(merged, id)
            else match Lookup(merged, id)
                 case Some(d) => Some(MergeProvider(d, entry.1))
                 case None => Some(entry.1)
  {
  }

  lemma UniqueTail(ps: Providers)
    requires |ps| > 0 && UniqueKeys(ps)
    ensures UniqueKeys(ps[1..])
    ensures ps[0].0 !in Keys(ps[1..])
  {
    var rest := ps[1..];
    forall i, j | 0 <= i < j < |rest| ensures rest[i].0 != rest[j].0 {
      assert rest[i] == ps[i + 1] && rest[j] == ps[j + 1];
    }
    forall k | 0 <= k < |rest| ensures Keys(rest)[k] != ps[0].0 {
      assert rest[k] == ps[k + 1];
    }
  }

  lemma {:induction false} MergeProvidersLookup(def: Providers, user: Providers, id: string)
    requires UniqueKeys(user)
    ensures Lookup(MergeProviders(def, user), id) == MergedAt(def, user, id)
    decreases |user|
  {
    if |user| > 0 {
      var step := MergeEntry(def, user[0]);
      var rest := user[1..];
      UniqueTail(user);
      MergeProvidersLookup(step, rest, id);
      MergeEntryLookup(def, user[0], id);
      assert MergeProviders(def, user) == MergeProviders(step, rest);
      if user[0].0 == id {
        assert Lookup(user, id) == Some(user[0].1);
        assert Lookup(rest, id) == None;
      } else {
        assert Lookup(user, id) == Lookup(rest, id);
      }
    }
  }

  /** The default providers keep their place; the merge only appends. */
  lemma {:induction false} MergeProvidersKeepsOrder(def: Providers, user: Providers)
    ensures |Keys(MergeProviders(def, user))| >= |Keys(def)|
    ensures Keys(MergeProviders(def, user))[..|def|] == Keys(def)
    decreases |user|
  {
    if |user| > 0 {
      var step := MergeEntry(def, user[0]);
      MergeProvidersKeepsOrder(step, user[1..]);
      assert Keys(step)[..|def|] == Keys(def);
    }
  }

  /** `mergeConfigs`: user providers merged over a copy of the defaults,
      user preferences spread over the default ones. The defaults are
      values here, so they cannot be changed by the merge. */
  function MergeConfigs(def: Config, user: UserConfig): (r: Config)
    ensures user.providers.None? ==> r.providers == def.providers
    ensures user.preferences.None? ==> r.preferences == def.preferences
    ensures user.preferences.Some? ==>
      r.preferences.Keys == def.preferences.Keys + user.preferences.value.Keys
  {
    Config(
      match user.providers
      case Some(up) => MergeProviders(def.providers, up)
      case None => def.providers,
      match user.preferences
      case Some(pref) => def.preferences + pref
      case None => def.preferences)
  }

  /** What a merged configuration holds, per provider id and per preference
      key: user values win, everything else is the default's. */
  lemma MergeConfigsSpec(def: Config, user: UserConfig, id: string, key: string)
    requires user.providers.Some? ==> UniqueKeys(user.providers.value)
    ensures var r := MergeConfigs(def, user);
      Lookup(r.providers, id)
        == (if user.providers.Some? then MergedAt(def.providers, user.providers.value, id)
            else Lookup(def.providers, id))
    ensures var r := MergeConfigs(def, user);
      (user.preferences.Some? && key in user.preferences.value ==>
         key in r.preferences && r.preferences[key] == user.preferences.value[key])
      && ((user.preferences.None? || key !in user.preferences.value) ==>
         (key in r.preferences <==> key in def.preferences)
         && (key in def.preferences ==> r.preferences[key] == def.preferences[key]))
  {
    if user.providers.Some? {
      MergeProvidersLookup(def.providers, user.providers.value, id);
    }
  }

  // ----- Identifiers ----------------------------------------------------

  /** The `fullId` of a model: `provider:model`. */
  function FullId(providerId: string, modelId: string): string {
    providerId + ":" + modelId
  }

  /** `parseModelId`: the provider is everything before the first `:`, the
      model id everything after it, colons included. */
  function ParseModelId(fullId: string): (r: (string, string))
    ensures ':' !in r.0
    ensures ':' in fullId ==> fullId == FullId(r.0, r.1)
    ensures ':' !in fullId ==> r == (fullId, "")
  {
    var parts := Split(fullId, ':');
    SplitHeadAndRest(fullId);
    (parts[0], Join(parts[1..], ':'))
  }

  lemma SplitHeadAndRest(s: string)
    ensures var parts := Split(s, ':');
      ':' !in parts[0]
      && (':' in s ==> s == FullId(parts[0], Join(parts[1..], ':')))
      && (':' !in s ==> parts == [s])
  {
    var parts := Split(s, ':');
    JoinSplit(s, ':');
    SplitSingleIffNoSep(s, ':');
    if ':' in s {
      assert |parts| > 1;
      assert Join(parts, ':') == parts[0] + [':'] + Join(parts[1..], ':');
    }
  }

  lemma {:induction false} SplitAfterPlainPrefix(p: string, m: string)
    requires ':' !in p
    ensures Split(p + [':'] + m, ':') == [p] + Split(m, ':')
  {
    if |p| == 0 {
      assert p + [':'] + m == [':'] + m;
      assert ([':'] + m)[1..] == m;
    } else {
      var w := p + [':'] + m;
      assert w[0] == p[0] && w[1..] == p[1..] + [':'] + m;
      assert ':' !in p[1..] by {
        forall k | 0 <= k < |p[1..]| ensures p[1..][k] != ':' {
          assert p[1..][k] == p[k + 1];
        }
      }
      SplitAfterPlainPrefix(p[1..], m);
      assert p == [p[0]] + p[1..];
    }
  }

  /** Formatting then parsing gives the parts back whenever the provider id
      has no `:`; the model id may contain any number of them. */
  lemma ParseFullIdRoundTrip(providerId: string, modelId: string)
    requires ':' !in providerId
    ensures ParseModelId(FullId(providerId, modelId)) == (providerId, modelId)
  {
    var w := FullId(providerId, modelId);
    assert w == providerId + [':'] + modelId;
    SplitAfterPlainPrefix(providerId, modelId);
    var parts := Split(w, ':');
    assert parts[1..] == Split(modelId, ':');
    JoinSplit(modelId, ':');
  }

  // ----- Listings -------------------------------------------------------

  /** A provider's `enabled` is truthy. */
  predicate IsEnabled(p: Provider) {
    p.enabled == Some(true)
  }

  function Tag(providerId: string, p: Provider, ms: seq<ModelEntry>): (r: seq<Listed>)
    ensures |r| == |ms|
    ensures forall i :: 0 <= i < |ms| ==>
      r[i] == Listed(ms[i], providerId, p.name, FullId(providerId, ms[i].id))
  {
    if |ms| == 0 then [] else [Listed(ms[0], providerId, p.name, FullId(providerId, ms[0].id))]
                              + Tag(providerId, p, ms[1..])
  }

  /** The listed models of one provider entry: none when disabled, an error
      when it has no model list. */
  function EntryModels(entry: (string, Provider)): (r: Result<seq<Listed>, string>)
    ensures !IsEnabled(entry.1) ==> r == Success([])
    ensures IsEnabled(entry.1) && entry.1.models.None? ==> r == Failure(ModelsUndefined)
    ensures IsEnabled(entry.1) && entry.1.models.Some? ==>
      r == Success(Tag(entry.0, entry.1, entry.1.models.value))
  {
    if !IsEnabled(entry.1) then Success([])
    else if entry.1.models.None? then Failure(ModelsUndefined)
    else Success(Tag(entry.0, entry.1, entry.1.models.value))
  }

  /** `getAvailableModels`: the models of every enabled provider, provider
      by provider in order, each tagged with its provider and `fullId`. */
  function AvailableModels(ps: Providers): (r: Result<seq<Listed>, string>)
    ensures r.Success? ==> forall l :: l in r.value ==>
      exists i :: 0 <= i < |ps| && ps[i].0 == l.provider && IsEnabled(ps[i].1)
    decreases |ps|
  {
    if |ps| == 0 then Success([])
    else
      var head :- EntryModels(ps[0]);
      var tail :- AvailableModels(ps[1..]);
      assert forall l :: l in tail ==>
        exists i :: 0 <= i < |ps| && ps[i].0 == l.provider && IsEnabled(ps[i].1) by {
        forall l | l in tail
          ensures exists i :: 0 <= i < |ps| && ps[i].0 == l.provider && IsEnabled(ps[i].1) {
          var i :| 0 <= i < |ps[1..]| && ps[1..][i].0 == l.provider && IsEnabled(ps[1..][i].1);
          assert ps[i + 1] == ps[1..][i];
        }
      }
      Success(head + tail)
  }

  /** The same listing, computed with a loop over the providers. */
  method CollectAvailableModels(ps: Providers) returns (r: Result<seq<Listed>, string>)
    ensures r == AvailableModels(ps)
  {
    var acc: seq<Listed> := [];
    var i := 0;
    while i < |ps|
      invariant 0 <= i <= |ps|
      invariant AvailableModels(ps).Success? ==>
        AvailableModels(ps[i..]).Success? && AvailableModels(ps).value == acc + AvailableModels(ps[i..]).value
      invariant AvailableModels(ps).Failure? ==> AvailableModels(ps[i..]) == AvailableModels(ps)
    {
      assert ps[i..][1..] == ps[i + 1..];
      match EntryModels(ps[i]) {
        case Failure(e) =>
          assert AvailableModels(ps[i..]) == Failure(e);
          return Failure(e);
        case Success(head) =>
          acc := acc + head;
      }
      i := i + 1;
    }
    assert ps[i..] == [];
    assert AvailableModels(ps[i..]) == Success([]);
    assert acc + [] == acc;
    return Success(acc);
  }

  /** `getProviderModels`: none for a missing or disabled provider. */
  function ProviderModels(ps: Providers, id: string): (r: Result<seq<Listed>, string>)
    ensures Lookup(ps, id).None? ==> r == Success([])
    ensures Lookup(ps, id).Some? ==> r == EntryModels((id, Lookup(ps, id).value))
  {
    match Lookup(ps, id)
    case None => Success([])
    case Some(p) => EntryModels((id, p))
  }

  /** Listing everything is listing each provider in turn. */
  lemma {:induction false} AvailableIsPerProvider(ps: Providers)
    requires UniqueKeys(ps)
    ensures AvailableModels(ps) == ConcatProviders(ps, Keys(ps))
    decreases |ps|
  {
    if |ps| > 0 {
      var rest := ps[1..];
      UniqueTail(ps);
      AvailableIsPerProvider(rest);
      assert Keys(ps)[1..] == Keys(rest);
      assert ProviderModels(ps, ps[0].0) == EntryModels(ps[0]);
      ConcatProvidersSkipsHead(ps, Keys(rest));
    }
  }

  /** The per-provider listings of `ids`, concatenated; the first error wins. */
  function ConcatProviders(ps: Providers, ids: seq<string>): Result<seq<Listed>, string>
    decreases |ids|
  {
    if |ids| == 0 then Success([])
    else
      var head :- ProviderModels(ps, ids[0]);
      var tail :- ConcatProviders(ps, ids[1..]);
      Success(head + tail)
  }

  /** Ids not equal to the first key see the same providers without it. */
  lemma {:induction false} ConcatProvidersSkipsHead(ps: Providers, ids: seq<string>)
    requires |ps| > 0
    requires ps[0].0 !in ids
    ensures ConcatProviders(ps, ids) == ConcatProviders(ps[1..], ids)
    decreases |ids|
  {
    if |ids| > 0 {
      assert ids[0] != ps[0].0;
      assert Lookup(ps, ids[0]) == Lookup(ps[1..], ids[0]);
      ConcatProvidersSkipsHead(ps, ids[1..]);
    }
  }

  /** The first model flagged as default. */
  function FirstDefault(ms: seq<ModelEntry>): (r: Option<nat>)
    ensures r.Some? ==> (r.value < |ms| && ms[r.value].isDefault
                         && forall j :: 0 <= j < r.value ==> !ms[j].isDefault)
    ensures r.None? ==> forall j :: 0 <= j < |ms| ==> !ms[j].isDefault
  {
    if |ms| == 0 then None
    else if ms[0].isDefault then Some(0)
    else match FirstDefault(ms[1..])
      case Some(k) => Some(k + 1)
      case None => None
  }

  /** `getDefaultModel`: the first default-flagged model of the requested
      provider, or of the preferred one when the request is falsy; an absent
      preference looks up the key "undefined". */
  function DefaultModel(cfg: Config, providerId: Option<string>): (r: Result<Option<Listed>, string>)
    ensures var target := TargetProvider(cfg, providerId);
      match Lookup(cfg.providers, target)
      case None => r == Success(None)
      case Some(p) =>
        (!IsEnabled(p) ==> r == Success(None))
        && (IsEnabled(p) && p.models.None? ==> r == Failure(ModelsUndefined))
        && (IsEnabled(p) && p.models.Some? ==>
             r.Success?
             && (r.value.None? <==> FirstDefault(p.models.value).None?)
             && (r.value.Some? ==>
                  var k := FirstDefault(p.models.value).value;
                  r.value.value == Listed(p.models.value[k], target, p.name,
                                          FullId(target, p.models.value[k].id))))
  {
    var target := TargetProvider(cfg, providerId);
    match Lookup(cfg.providers, target)
    case None => Success(None)
    case Some(p) =>
      if !IsEnabled(p) then Success(None)
      else if p.models.None? then Failure(ModelsUndefined)
      else
        match FirstDefault(p.models.value)
        case None => Success(None)
        case Some(k) =>
          Success(Some(Listed(p.models.value[k], target, p.name,
                              FullId(target, p.models.value[k].id))))
  }

  /** `providerId || preferences.defaultProvider`, with a missing preference
      read as the key "undefined". */
  function TargetProvider(cfg: Config, providerId: Option<string>): (r: string)
    ensures providerId.Some? && providerId.value != "" ==> r == providerId.value
    ensures (providerId.None? || providerId.value == "") && "defaultProvider" in cfg.preferences ==>
      r == cfg.preferences["defaultProvider"]
    ensures (providerId.None? || providerId.value == "") && "defaultProvider" !in cfg.preferences ==>
      r == "undefined"
  {
    if providerId.Some? && providerId.value != "" then providerId.value
    else if "defaultProvider" in cfg.preferences then cfg.preferences["defaultProvider"]
    else "undefined"
  }

  /** A default model, when one is found, is flagged default, belongs to an
      enabled provider, and is listed among that provider's models. */
  lemma DefaultModelIsListed(cfg: Config, providerId: Option<string>)
    requires DefaultModel(cfg, providerId).Success?
    requires DefaultModel(cfg, providerId).value.Some?
    ensures var l := DefaultModel(cfg, providerId).value.value;
      l.model.isDefault
      && ProviderModels(cfg.providers, l.provider).Success?
      && l in ProviderModels(cfg.providers, l.provider).value
  {
    var target := TargetProvider(cfg, providerId);
    var p := Lookup(cfg.providers, target).value;
    var k := FirstDefault(p.models.value).value;
    var l := DefaultModel(cfg, providerId).value.value;
    assert Tag(target, p, p.models.value)[k] == l;
  }

  /** Without a provider id, the default model is the first default-flagged
      model of the preferred provider, as if that provider had been asked
      for. */
  lemma DefaultModelOfPreferred(cfg: Config, providerId: Option<string>)
    requires providerId.None? || providerId == Some("")
    requires "defaultProvider" in cfg.preferences
    ensures DefaultModel(cfg, providerId) == DefaultModel(cfg, Some(cfg.preferences["defaultProvider"]))
    ensures var pref := cfg.preferences["defaultProvider"];
      DefaultModel(cfg, providerId).Success? && DefaultModel(cfg, providerId).value.Some? ==>
        var l := DefaultModel(cfg, providerId).value.value;
        l.provider == pref && l.model.isDefault
        && Lookup(cfg.providers, pref).Some?
        && l.model in Lookup(cfg.providers, pref).value.models.value
  {
    var pref := cfg.preferences["defaultProvider"];
    assert TargetProvider(cfg, providerId) == pref;
    assert TargetProvider(cfg, Some(pref)) == pref;
  }

  // ----- Editing --------------------------------------------------------

  /** `setProviderEnabled`: sets the flag of an existing provider; an unknown
      id changes nothing. */
  function SetProviderEnabled(cfg: Config, id: string, enabled: bool): (r: Config)
    ensures r.preferences == cfg.preferences
    ensures Keys(r.providers) == Keys(cfg.providers)
    ensures Lookup(cfg.providers, id).None? ==> r == cfg
    ensures Lookup(cfg.providers, id).Some? ==>
      Lookup(r.providers, id) == Some(Lookup(cfg.providers, id).value.(enabled := Some(enabled)))
    ensures forall k :: k != id ==> Lookup(r.providers, k) == Lookup(cfg.providers, k)
  {
    match Lookup(cfg.providers, id)
    case None => cfg
    case Some(p) => cfg.(providers := Upsert(cfg.providers, id, p.(enabled := Some(enabled))))
  }

  datatype EditError = ProviderNotFound(id: string) | ModelsMissing

  /** The message `addModel` throws for an unknown provider. */
  function EditErrorText(e: EditError): string {
    match e
    case ProviderNotFound(id) => "Provider " + id + " not found"
    case ModelsMissing => ModelsUndefined
  }

  /** `addModel`: appends to an existing provider's models; an unknown
      provider is an error, and so is an inherited member's name, which is
      found but has no `models` to append to. */
  function AddModel(cfg: Config, id: string, model: ModelEntry): (r: Result<Config, EditError>)
    ensures Lookup(cfg.providers, id).None? && id !in PrototypeNames ==>
      r == Failure(ProviderNotFound(id))
    ensures Lookup(cfg.providers, id).None? && id in PrototypeNames ==> r == Failure(ModelsMissing)
    ensures r.Success? ==>
      var p := Lookup(cfg.providers, id).value;
      p.models.Some?
      && Lookup(r.value.providers, id) == Some(p.(models := Some(p.models.value + [model])))
      && Keys(r.value.providers) == Keys(cfg.providers)
      && r.value.preferences == cfg.preferences
      && forall k :: k != id ==> Lookup(r.value.providers, k) == Lookup(cfg.providers, k)
    ensures r.Failure? <==> Lookup(cfg.providers, id).None? || Lookup(cfg.providers, id).value.models.None?
  {
    match Read(cfg.providers, id)
    case Missing => Failure(ProviderNotFound(id))
    case Inherited => Failure(ModelsMissing)
    case Own(p) =>
      match p.models
      case None => Failure(ModelsMissing)
      case Some(ms) => Success(cfg.(providers := Upsert(cfg.providers, id, p.(models := Some(ms + [model])))))
  }

  /** `models.filter(m => m.id !== modelId)`. */
  function WithoutModel(ms: seq<ModelEntry>, modelId: string): (r: seq<ModelEntry>)
    ensures |r| <= |ms|
    ensures forall m :: m in r ==> m in ms && m.id != modelId
    ensures forall m :: m in ms && m.id != modelId ==> m in r
  {
    if |ms| == 0 then []
    else if ms[0].id == modelId then WithoutModel(ms[1..], modelId)
    else [ms[0]] + WithoutModel(ms[1..], modelId)
  }

  /** Filtering keeps the order of what survives: removing nothing is the
      identity, and the survivors are exactly the kept entries in turn. */
  lemma {:induction false} WithoutModelKeepsOrder(a: seq<ModelEntry>, b: seq<ModelEntry>, modelId: string)
    ensures WithoutModel(a + b, modelId) == WithoutModel(a, modelId) + WithoutModel(b, modelId)
    decreases |a|
  {
    if |a| > 0 {
      assert (a + b)[0] == a[0] && (a + b)[1..] == a[1..] + b;
      WithoutModelKeepsOrder(a[1..], b, modelId);
    } else {
      assert a + b == b;
    }
  }

  /** `removeModel`: drops every model with the id from an existing
      provider; an unknown provider changes nothing, while an inherited
      member's name is found and has no `models` to filter. */
  function RemoveModel(cfg: Config, id: string, modelId: string): (r: Result<Config, EditError>)
    ensures Lookup(cfg.providers, id).None? && id !in PrototypeNames ==> r == Success(cfg)
    ensures Lookup(cfg.providers, id).None? && id in PrototypeNames ==> r == Failure(ModelsMissing)
    ensures r.Failure? <==>
      (Lookup(cfg.providers, id).None? && id in PrototypeNames)
      || (Lookup(cfg.providers, id).Some? && Lookup(cfg.providers, id).value.models.None?)
    ensures r.Success? && Lookup(cfg.providers, id).Some? ==>
      var p := Lookup(cfg.providers, id).value;
      Lookup(r.value.providers, id) == Some(p.(models := Some(WithoutModel(p.models.value, modelId))))
      && Keys(r.value.providers) == Keys(cfg.providers)
      && r.value.preferences == cfg.preferences
      && forall k :: k != id ==> Lookup(r.value.providers, k) == Lookup(cfg.providers, k)
  {
    match Read(cfg.providers, id)
    case Missing => Success(cfg)
    case Inherited => Failure(ModelsMissing)
    case Own(p) =>
      match p.models
      case None => Failure(ModelsMissing)
      case Some(ms) =>
        Success(cfg.(providers := Upsert(cfg.providers, id, p.(models := Some(WithoutModel(ms, modelId))))))
  }

  /** Adding a model and removing its id again leaves no model of that id,
      and keeps every other model. */
  lemma AddThenRemove(cfg: Config, id: string, model: ModelEntry)
    requires AddModel(cfg, id, model).Success?
    ensures var added := AddModel(cfg, id, model).value;
      var r := RemoveModel(added, id, model.id);
      r.Success?
      && var ms := Lookup(r.value.providers, id).value.models.value;
      (forall m :: m in ms ==> m.id != model.id)
      && (forall m :: m in Lookup(cfg.providers, id).value.models.value && m.id != model.id ==> m in ms)
  {
  }

  datatype ProviderSummary = ProviderSummary(id: string, name: Option<string>, modelCount: nat)

  /** The entries whose provider is enabled, in order. */
  function EnabledEntries(ps: Providers): (r: Providers)
    ensures |r| <= |ps|
    ensures forall e :: e in r <==> e in ps && IsEnabled(e.1)
  {
    if |ps| == 0 then []
    else if IsEnabled(ps[0].1) then [ps[0]] + EnabledEntries(ps[1..])
    else EnabledEntries(ps[1..])
  }

  /** One summary per entry: its id, its name and the length of its model
      list. */
  function Summaries(es: Providers): (r: seq<ProviderSummary>)
    ensures |r| == |es|
    ensures forall k :: 0 <= k < |es| ==>
      r[k] == ProviderSummary(es[k].0, es[k].1.name, |es[k].1.models.GetOr([])|)
  {
    if |es| == 0 then []
    else [ProviderSummary(es[0].0, es[0].1.name, |es[0].1.models.GetOr([])|)] + Summaries(es[1..])
  }

  /** Some enabled provider has no model list. */
  predicate EnabledWithoutModels(ps: Providers) {
    exists i :: 0 <= i < |ps| && IsEnabled(ps[i].1) && ps[i].1.models.None?
  }

  lemma EnabledWithoutModelsTail(ps: Providers)
    requires |ps| > 0
    ensures EnabledWithoutModels(ps) <==>
      (IsEnabled(ps[0].1) && ps[0].1.models.None?) || EnabledWithoutModels(ps[1..])
  {
    if EnabledWithoutModels(ps[1..]) {
      var i :| 0 <= i < |ps[1..]| && IsEnabled(ps[1..][i].1) && ps[1..][i].1.models.None?;
      assert ps[i + 1] == ps[1..][i];
    }
    if EnabledWithoutModels(ps) && !(IsEnabled(ps[0].1) && ps[0].1.models.None?) {
      var i :| 0 <= i < |ps| && IsEnabled(ps[i].1) && ps[i].1.models.None?;
      assert i > 0 && ps[1..][i - 1] == ps[i];
    }
  }

  /** `getEnabledProviders`: the summaries of the enabled providers, in
      order; reading the length of a missing model list throws. */
  function EnabledProviders(ps: Providers): (r: Result<seq<ProviderSummary>, string>)
    ensures r.Failure? <==> EnabledWithoutModels(ps)
    ensures r.Failure? ==> r.error == ModelsUndefined
    ensures r.Success? ==> r.value == Summaries(EnabledEntries(ps))
    ensures r.Success? ==> forall s :: s in r.value ==>
      exists i :: 0 <= i < |ps| && ps[i].0 == s.id && IsEnabled(ps[i].1)
        && ps[i].1.models.Some? && s.modelCount == |ps[i].1.models.value|
    decreases |ps|
  {
    if |ps| == 0 then Success([])
    else
      EnabledWithoutModelsTail(ps);
      var tail :- EnabledProviders(ps[1..]);
      assert forall s :: s in tail ==> exists i :: 0 <= i < |ps| && ps[i].0 == s.id
        && IsEnabled(ps[i].1) && ps[i].1.models.Some? && s.modelCount == |ps[i].1.models.value| by {
        forall s | s in tail ensures exists i :: 0 <= i < |ps| && ps[i].0 == s.id
          && IsEnabled(ps[i].1) && ps[i].1.models.Some? && s.modelCount == |ps[i].1.models.value| {
          var i :| 0 <= i < |ps[1..]| && ps[1..][i].0 == s.id && IsEnabled(ps[1..][i].1)
            && ps[1..][i].1.models.Some? && s.modelCount == |ps[1..][i].1.models.value|;
          assert ps[i + 1] == ps[1..][i];
        }
      }
      if !IsEnabled(ps[0].1) then Success(tail)
      else if ps[0].1.models.None? then Failure(ModelsUndefined)
      else
        var head := ProviderSummary(ps[0].0, ps[0].1.name, |ps[0].1.models.value|);
        assert EnabledEntries(ps) == [ps[0]] + EnabledEntries(ps[1..]);
        assert Summaries([ps[0]] + EnabledEntries(ps[1..])) == [head] + Summaries(EnabledEntries(ps[1..])) by {
          assert ([ps[0]] + EnabledEntries(ps[1..]))[1..] == EnabledEntries(ps[1..]);
        }
        Success([head] + tail)
  }

  /** The total of the model counts. */
  function TotalModels(ss: seq<ProviderSummary>): nat {
    if |ss| == 0 then 0 else ss[0].modelCount + TotalModels(ss[1..])
  }

  lemma {:induction false} TotalModelsAppend(a: seq<ProviderSummary>, b: seq<ProviderSummary>)
    ensures TotalModels(a + b) == TotalModels(a) + TotalModels(b)
    decreases |a|
  {
    if |a| == 0 {
      assert a + b == b;
    } else {
      assert (a + b)[0] == a[0] && (a + b)[1..] == a[1..] + b;
      TotalModelsAppend(a[1..], b);
    }
  }

  /** The summaries and the listing agree: both fail on the same
      configurations, and the model counts add up to the number of models
      listed. */
  lemma {:induction false} EnabledProvidersCountListing(ps: Providers)
    ensures EnabledProviders(ps).Success? <==> AvailableModels(ps).Success?
    ensures EnabledProviders(ps).Success? ==>
      TotalModels(EnabledProviders(ps).value) == |AvailableModels(ps).value|
    decreases |ps|
  {
    if |ps| > 0 {
      EnabledProvidersCountListing(ps[1..]);
      var e := ps[0];
      if IsEnabled(e.1) && e.1.models.Some? && EnabledProviders(ps[1..]).Success? {
        var head := ProviderSummary(e.0, e.1.name, |e.1.models.value|);
        var tail := EnabledProviders(ps[1..]).value;
        assert EnabledProviders(ps).value == [head] + tail;
        TotalModelsAppend([head], tail);
        assert TotalModels([head]) == |e.1.models.value| by {
          assert [head][1..] == [];
        }
        assert AvailableModels(ps).value
            == Tag(e.0, e.1, e.1.models.value) + AvailableModels(ps[1..]).value;
      }
    }
  }

  /** Disabling a provider removes it from the enabled summaries and its
      models from the listing. */
  lemma {:induction false} DisabledProviderNotListed(ps: Providers, id: string)
    requires UniqueKeys(ps)
    requires Lookup(ps, id).Some? && !IsEnabled(Lookup(ps, id).value)
    ensures AvailableModels(ps).Success? ==> forall l :: l in AvailableModels(ps).value ==> l.provider != id
  {
    if AvailableModels(ps).Success? {
      forall l | l in AvailableModels(ps).value ensures l.provider != id {
        var i :| 0 <= i < |ps| && ps[i].0 == l.provider && IsEnabled(ps[i].1);
      }
    }
  }

  // ----- The manager ----------------------------------------------------

  /** The configuration shipped for when the files cannot be read. */
  const FallbackConfig: Config := Config(
    [("openai", Provider(Some("OpenAI"), Some(true),
                         Some([ModelEntry("gpt-4o", "GPT-4o", "Most capable", true)])))],
    map["defaultProvider" := "openai"])

  /** The fallback's default model is OpenAI's `gpt-4o`. */
  lemma FallbackDefaultModel()
    ensures DefaultModel(FallbackConfig, None)
         == Success(Some(Listed(ModelEntry("gpt-4o", "GPT-4o", "Most capable", true),
                                "openai", Some("OpenAI"), "openai:gpt-4o")))
  {
    var ps := FallbackConfig.providers;
    var m := ModelEntry("gpt-4o", "GPT-4o", "Most capable", true);
    assert "defaultProvider" in FallbackConfig.preferences;
    assert TargetProvider(FallbackConfig, None) == "openai";
    assert Lookup(ps, "openai") == Some(ps[0].1);
    assert ps[0].1.models.value == [m];
    assert FirstDefault([m]) == Some(0);
    FallbackFullId();
  }

  lemma FallbackFullId()
    ensures FullId("openai", "gpt-4o") == "openai:gpt-4o"
  {
    var f := FullId("openai", "gpt-4o");
    assert |f| == 13;
    forall k | 0 <= k < 13 ensures f[k] == "openai:gpt-4o"[k] {
    }
  }

  /** What reading the override file gave. */
  datatype UserFile = NoUserFile | UserParsed(user: UserConfig) | UserUnreadable

  /** `loadConfig` as written: the configuration it stores and the one it
      returns. On a read or parse failure (`defaults` is `None`, or the
      override file is unreadable) it returns the fallback but stores
      nothing. */
  function LoadConfigAsWritten(defaults: Option<Config>, userFile: UserFile)
    : (r: (Option<Config>, Config))
    ensures defaults.None? || userFile.UserUnreadable? ==> r == (None, FallbackConfig)
    ensures defaults.Some? && userFile.NoUserFile? ==> r == (defaults, defaults.value)
    ensures r.0.Some? ==> r.1 == r.0.value
  {
    match (defaults, userFile)
    case (None, _) => (None, FallbackConfig)
    case (_, UserUnreadable) => (None, FallbackConfig)
    case (Some(d), NoUserFile) => (Some(d), d)
    case (Some(d), UserParsed(u)) => var m := MergeConfigs(d, u); (Some(m), m)
  }

  /** Every accessor first loads when nothing is stored and then reads the
      stored configuration; as written, a failed load leaves nothing stored
      and the read throws. */
  function ListModelsAsWritten(stored: Option<Config>, defaults: Option<Config>, userFile: UserFile)
    : (r: Result<seq<Listed>, string>)
    ensures stored.Some? ==> r == AvailableModels(stored.value.providers)
    ensures stored.None? && (defaults.None? || userFile.UserUnreadable?) ==>
      r == Failure(ConfigNull)
  {
    var cfg := if stored.Some? then stored else LoadConfigAsWritten(defaults, userFile).0;
    match cfg
    case None => Failure(ConfigNull)
    case Some(c) => AvailableModels(c.providers)
  }

  /** The error of reading `providers` of a null configuration. */
  const ConfigNull: string := "TypeError: Cannot read properties of null (reading 'providers')"

  /** With the model file missing, the listing throws instead of offering the
      fallback model that `loadConfig` prepared. */
  lemma FallbackNeverReachesListing()
    ensures ListModelsAsWritten(None, None, NoUserFile) == Failure(ConfigNull)
    ensures AvailableModels(FallbackConfig.providers).Success?
  {
    FallbackIsListed();
  }

  /** `loadConfig` storing what it returns, fallback included: the merge of
      the two files, the defaults alone without an override file, the
      fallback when either file cannot be read. */
  function LoadConfig(defaults: Option<Config>, userFile: UserFile): (r: Config)
    ensures defaults.None? || userFile.UserUnreadable? ==> r == FallbackConfig
    ensures defaults.Some? && userFile.NoUserFile? ==> r == defaults.value
    ensures defaults.Some? && userFile.UserParsed? ==> r == MergeConfigs(defaults.value, userFile.user)
  {
    LoadConfigAsWritten(defaults, userFile).1
  }

  /** The configuration an accessor reads: the stored one, else a fresh load,
      which is then stored. */
  function CurrentConfig(stored: Option<Config>, defaults: Option<Config>, userFile: UserFile)
    : (r: Config)
    ensures stored.Some? ==> r == stored.value
    ensures stored.None? ==> r == LoadConfig(defaults, userFile)
  {
    if stored.Some? then stored.value else LoadConfig(defaults, userFile)
  }

  /** `getAvailableModels` with loads stored: it can only fail on a provider
      without a model list, never on the configuration itself. */
  function ListModels(stored: Option<Config>, defaults: Option<Config>, userFile: UserFile)
    : (r: Result<seq<Listed>, string>)
    ensures r.Failure? ==> r.error == ModelsUndefined
    ensures stored.Some? ==> r == ListModelsAsWritten(stored, defaults, userFile)
  {
    AvailableModelsFailure(CurrentConfig(stored, defaults, userFile).providers);
    AvailableModels(CurrentConfig(stored, defaults, userFile).providers)
  }

  lemma {:induction false} AvailableModelsFailure(ps: Providers)
    ensures AvailableModels(ps).Failure? ==> AvailableModels(ps).error == ModelsUndefined
    decreases |ps|
  {
    if |ps| > 0 {
      AvailableModelsFailure(ps[1..]);
    }
  }

  /** With loads stored, a failed load lists the fallback's model. */
  lemma FallbackIsListed()
    ensures ListModels(None, None, NoUserFile)
         == Success([Listed(ModelEntry("gpt-4o", "GPT-4o", "Most capable", true),
                            "openai", Some("OpenAI"), "openai:gpt-4o")])
  {
    var ps := FallbackConfig.providers;
    var m := ModelEntry("gpt-4o", "GPT-4o", "Most capable", true);
    var l := Listed(m, "openai", Some("OpenAI"), "openai:gpt-4o");
    assert ps[1..] == [];
    FallbackFullId();
    assert Tag("openai", ps[0].1, [m]) == [l];
    assert EntryModels(ps[0]) == Success([l]);
    assert AvailableModels(ps[1..]) == Success([]);
    assert [l] + [] == [l];
  }
}
