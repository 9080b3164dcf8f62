/** Which Amberflo meter a meter name stands for: the ingest cache kept up to date by informer
    events, the index an Offer is compiled with, and the name a meter is created under. */
module MeterCache {
  import opened Naming
  import opened Results
  import opened Meters

  datatype Phase = Draft | Published | Deprecated | Retired

  /** A MeterDefinition: metadata.name, spec.meterName and spec.phase. */
  datatype Definition = Definition(name: string, meterName: string, phase: Phase)

  predicate Served(d: Definition) { d.phase.Published? || d.phase.Deprecated? }

  /** Added and updated objects arrive alike; a removed one may arrive in an outdated form. */
  datatype InformerEvent = Changed(d: Definition) | Removed(last: Definition)

  type Live = map<string, Definition>

  class MeterDefinitionCache {
    const sha1: Sha1Hex
    var apiNameByMeterName: map<string, string>
    /** Every event handled so far. */
    ghost var seen: seq<InformerEvent>

    constructor (sha1: Sha1Hex)
      ensures this.sha1 == sha1 && seen == [] && Valid()
    {
      this.sha1 := sha1;
      apiNameByMeterName, seen := map[], [];
    }

    ghost predicate Valid()
      reads this
    {
      apiNameByMeterName == EntriesOver(sha1, map[], seen)
    }

    method Upsert(d: Definition)
      modifies this`apiNameByMeterName
      ensures apiNameByMeterName == EntriesAfter(sha1, old(apiNameByMeterName), Changed(d))
    {
      if d.phase != Published && d.phase != Deprecated {
        Delete(d);
        return;
      }
      apiNameByMeterName := apiNameByMeterName[d.meterName := MeterAPIName(sha1, d.name)];
    }

    method Delete(d: Definition)
      modifies this`apiNameByMeterName
      ensures apiNameByMeterName == EntriesAfter(sha1, old(apiNameByMeterName), Removed(d))
    {
      apiNameByMeterName := apiNameByMeterName - {d.meterName};
    }

    /** The informer's events, one after the other. */
    method Handle(events: seq<InformerEvent>)
      requires Valid()
      modifies this
      ensures Valid() && seen == old(seen) + events
    {
      var i := 0;
      while i < |events|
        invariant 0 <= i <= |events|
        invariant Valid() && seen == old(seen) + events[..i]
      {
        assert (seen + [events[i]])[..|seen|] == seen;
        match events[i] {
          case Changed(d) => Upsert(d);
          case Removed(d) => Delete(d);
        }
        seen := seen + [events[i]];
        i := i + 1;
      }
    }

    /** Whatever orderly events came before, a meter name is known exactly while a live published or
        deprecated definition has it, and the answer is that definition's api name. */
    method GetAPIName(meterName: string) returns (r: Option<string>)
      requires Valid()
      ensures Orderly(seen) ==> (r.Some? <==> HasServed(LiveOver(seen), meterName))
      ensures Orderly(seen) ==>
                forall name | ServedAs(LiveOver(seen), meterName, name) :: r == Some(MeterAPIName(sha1, name))
    {
      hide MeterAPIName, EntriesOver, LiveOver;
      if Orderly(seen) {
        CacheReflectsLive(sha1, seen);
        ReflectedLookup(sha1, apiNameByMeterName, LiveOver(seen), meterName);
      }
      if meterName in apiNameByMeterName {
        return Some(apiNameByMeterName[meterName]);
      }
      return None;
    }
  }

  // ---- what the events mean -----------------------------------------------

  function EntriesAfter(sha1: Sha1Hex, entries: map<string, string>, e: InformerEvent): map<string, string> {
    match e
    case Changed(d) => if Served(d) then entries[d.meterName := MeterAPIName(sha1, d.name)] else entries - {d.meterName}
    case Removed(d) => entries - {d.meterName}
  }

  function EntriesOver(sha1: Sha1Hex, entries: map<string, string>, events: seq<InformerEvent>): map<string, string> {
    if events == [] then entries
    else EntriesAfter(sha1, EntriesOver(sha1, entries, events[..|events| - 1]), events[|events| - 1])
  }

  /** The definitions that exist after the events. */
  function LiveAfter(live: Live, e: InformerEvent): Live {
    match e
    case Changed(d) => live[d.name := d]
    case Removed(d) => live - {d.name}
  }

  function LiveOver(events: seq<InformerEvent>): Live {
    if events == [] then map[]
    else LiveAfter(LiveOver(events[..|events| - 1]), events[|events| - 1])
  }

  /** No live definition shares its meterName with a served one; drafts may share names. */
  predicate DistinctMeterNames(live: Live) {
    forall a, b | a in live && b in live && live[a].meterName == live[b].meterName && Served(live[a]) :: a == b
  }

  /** A definition's meterName never changes while it lives, and a removal is of a live one. */
  predicate Immutable(live: Live, e: InformerEvent) {
    match e
    case Changed(d) => d.name in live ==> live[d.name].meterName == d.meterName
    case Removed(d) => d.name in live && live[d.name].meterName == d.meterName
  }

  /** Every prefix of the events keeps meterNames immutable, and those of served definitions apart. */
  predicate Orderly(events: seq<InformerEvent>) {
    if events == [] then true
    else
      var n := |events| - 1;
      Orderly(events[..n]) && Immutable(LiveOver(events[..n]), events[n]) && DistinctMeterNames(LiveOver(events))
  }

  predicate ServedAs(live: Live, meterName: string, name: string) {
    name in live && live[name].meterName == meterName && Served(live[name])
  }

  ghost predicate HasServed(live: Live, meterName: string) {
    exists name :: ServedAs(live, meterName, name)
  }

  /** Some live served definition accounts for an entry. */
  ghost predicate AccountedFor(sha1: Sha1Hex, live: Live, m: string, apiName: string) {
    exists name :: ServedAs(live, m, name) && apiName == MeterAPIName(sha1, name)
  }

  predicate Listed(sha1: Sha1Hex, entries: map<string, string>, live: Live, name: string)
    requires name in live
  {
    live[name].meterName in entries && entries[live[name].meterName] == MeterAPIName(sha1, name)
  }

  /** The entries are those of the live served definitions, each under its api name. */
  ghost predicate Reflects(sha1: Sha1Hex, entries: map<string, string>, live: Live) {
    && (forall m | m in entries :: AccountedFor(sha1, live, m, entries[m]))
    && (forall name | name in live && Served(live[name]) :: Listed(sha1, entries, live, name))
  }

  /** After any orderly sequence of events, added and re-added, promoted, retired and removed in any
      order, the cache is exactly the map computed from the definitions that exist. */
  lemma {:induction false} CacheReflectsLive(sha1: Sha1Hex, events: seq<InformerEvent>)
    requires Orderly(events)
    ensures Reflects(sha1, EntriesOver(sha1, map[], events), LiveOver(events))
    ensures DistinctMeterNames(LiveOver(events))
    ensures forall k | k in LiveOver(events) :: LiveOver(events)[k].name == k
  {
    if events != [] {
      var n := |events| - 1;
      CacheReflectsLive(sha1, events[..n]);
      StepReflects(sha1, EntriesOver(sha1, map[], events[..n]), LiveOver(events[..n]), events[n]);
    }
  }

  lemma EntryAccountedFor(sha1: Sha1Hex, entries: map<string, string>, live: Live, e: InformerEvent, m: string)
    requires m in entries ==> AccountedFor(sha1, live, m, entries[m])
    requires Immutable(live, e) && m in EntriesAfter(sha1, entries, e)
    ensures AccountedFor(sha1, LiveAfter(live, e), m, EntriesAfter(sha1, entries, e)[m])
  {
  }

  lemma DefinitionListed(sha1: Sha1Hex, entries: map<string, string>, live: Live, e: InformerEvent, name: string)
    requires name in live && Served(live[name]) ==> Listed(sha1, entries, live, name)
    requires DistinctMeterNames(live) && Immutable(live, e) && DistinctMeterNames(LiveAfter(live, e))
    requires name in LiveAfter(live, e) && Served(LiveAfter(live, e)[name])
    ensures Listed(sha1, EntriesAfter(sha1, entries, e), LiveAfter(live, e), name)
  {
    hide MeterAPIName;
    var after := LiveAfter(live, e);
    if !(e.Changed? && name == e.d.name) {
      if e.Changed? {
        assert e.d.name in after && after[e.d.name] == e.d;
      }
    }
  }

  lemma StepReflects(sha1: Sha1Hex, entries: map<string, string>, live: Live, e: InformerEvent)
    requires Reflects(sha1, entries, live) && DistinctMeterNames(live)
    requires Immutable(live, e) && DistinctMeterNames(LiveAfter(live, e))
    ensures Reflects(sha1, EntriesAfter(sha1, entries, e), LiveAfter(live, e))
  {
    hide MeterAPIName, EntriesAfter, LiveAfter, AccountedFor, Listed;
    forall m | m in EntriesAfter(sha1, entries, e)
      ensures AccountedFor(sha1, LiveAfter(live, e), m, EntriesAfter(sha1, entries, e)[m])
    {
      EntryAccountedFor(sha1, entries, live, e, m);
    }
    forall name | name in LiveAfter(live, e) && Served(LiveAfter(live, e)[name])
      ensures Listed(sha1, EntriesAfter(sha1, entries, e), LiveAfter(live, e), name)
    {
      DefinitionListed(sha1, entries, live, e, name);
    }
  }

  lemma ReflectedLookup(sha1: Sha1Hex, entries: map<string, string>, live: Live, m: string)
    requires Reflects(sha1, entries, live)
    ensures m in entries <==> HasServed(live, m)
    ensures forall name | ServedAs(live, m, name) :: m in entries && entries[m] == MeterAPIName(sha1, name)
  {
    hide MeterAPIName;
    forall name | ServedAs(live, m, name) ensures m in entries && entries[m] == MeterAPIName(sha1, name) {
      assert Listed(sha1, entries, live, name);
    }
    if m in entries {
      assert AccountedFor(sha1, live, m, entries[m]);
    }
  }

  // ---- the other two users of the name ------------------------------------

  function IndexOf(sha1: Sha1Hex, list: seq<Definition>): map<string, string> {
    if list == [] then map[]
    else
      var n := |list| - 1;
      var front := IndexOf(sha1, list[..n]);
      if list[n].meterName == "" then front else front[list[n].meterName := MeterAPIName(sha1, list[n].name)]
  }

  method MeterAPINameIndex(sha1: Sha1Hex, list: seq<Definition>) returns (index: map<string, string>)
    ensures index == IndexOf(sha1, list)
  {
    hide MeterAPIName;
    index := map[];
    var i := 0;
    assert list[..0] == [];
    while i < |list|
      invariant 0 <= i <= |list|
      invariant index == IndexOf(sha1, list[..i])
    {
      assert list[..i + 1][..i] == list[..i];
      if list[i].meterName != "" {
        index := index[list[i].meterName := MeterAPIName(sha1, list[i].name)];
      }
      i := i + 1;
    }
    assert list[..i] == list;
  }

  predicate NamedIn(list: seq<Definition>, m: string) {
    exists i :: 0 <= i < |list| && list[i].meterName == m
  }

  predicate NamedAs(sha1: Sha1Hex, list: seq<Definition>, m: string, apiName: string) {
    exists i :: 0 <= i < |list| && list[i].meterName == m && apiName == MeterAPIName(sha1, list[i].name)
  }

  lemma NamedInFront(sha1: Sha1Hex, list: seq<Definition>, m: string, apiName: string)
    requires list != []
    ensures NamedIn(list, m) <==> NamedIn(list[..|list| - 1], m) || list[|list| - 1].meterName == m
    ensures NamedAs(sha1, list[..|list| - 1], m, apiName) ==> NamedAs(sha1, list, m, apiName)
  {
  }

  /** Every entry of the index is some listed definition's, and every definition with a meterName has one. */
  lemma {:induction false} IndexEntry(sha1: Sha1Hex, list: seq<Definition>, m: string)
    ensures m in IndexOf(sha1, list) <==> m != "" && NamedIn(list, m)
    ensures m in IndexOf(sha1, list) ==> NamedAs(sha1, list, m, IndexOf(sha1, list)[m])
  {
    hide MeterAPIName, NamedIn, NamedAs;
    if list == [] {
      assert !NamedIn(list, m) by { NothingNamed(m); }
    } else {
      var last := list[|list| - 1];
      var front := IndexOf(sha1, list[..|list| - 1]);
      IndexEntry(sha1, list[..|list| - 1], m);
      NamedInFront(sha1, list, m, if m in front then front[m] else "");
      LastNamed(sha1, list);
    }
  }

  lemma NothingNamed(m: string)
    ensures !NamedIn([], m)
  {
  }

  lemma LastNamed(sha1: Sha1Hex, list: seq<Definition>)
    requires list != []
    ensures NamedAs(sha1, list, list[|list| - 1].meterName, MeterAPIName(sha1, list[|list| - 1].name))
  {
  }

  /** Ingest, the Offer compiler and the meter reconciler use one name: for every live served
      definition the cache, the index and EnsureMeter agree, and the name fits Amberflo's limit. */
  lemma {:induction false} NamesAgree(sha1: Sha1Hex, entries: map<string, string>, live: Live, list: seq<Definition>,
                   name: string, request: DesiredMeter)
    requires Reflects(sha1, entries, live) && DistinctMeterNames(live) && forall k | k in live :: live[k].name == k
    requires forall d :: d in list <==> d.name in live && live[d.name] == d
    requires name in live && Served(live[name]) && live[name].meterName != ""
    requires request.apiName == MeterAPIName(sha1, name)
    ensures live[name].meterName in entries && live[name].meterName in IndexOf(sha1, list)
    ensures entries[live[name].meterName] == IndexOf(sha1, list)[live[name].meterName]
    ensures entries[live[name].meterName] == BuildWireMeter(Shortened(sha1, request)).name
    ensures |entries[live[name].meterName]| <= MAX_METER_API_NAME
  {
    hide IndexOf, Reflects;
    MeterAPINameIdempotent(sha1, name);
    assert Listed(sha1, entries, live, name) by { ServedIsListed(sha1, entries, live, name); }
    assert live[name] in list;
    var m := live[name].meterName;
    IndexEntry(sha1, list, m);
    assert NamedIn(list, m);
    var i :| 0 <= i < |list| && list[i].meterName == m && IndexOf(sha1, list)[m] == MeterAPIName(sha1, list[i].name);
    assert list[i] in list;
  }

  lemma ServedIsListed(sha1: Sha1Hex, entries: map<string, string>, live: Live, name: string)
    requires Reflects(sha1, entries, live) && name in live && Served(live[name])
    ensures Listed(sha1, entries, live, name)
  {
  }

  lemma {:induction false} OneMore(sha1: Sha1Hex, events: seq<InformerEvent>, e: InformerEvent)
    ensures LiveOver(events + [e]) == LiveAfter(LiveOver(events), e)
    ensures EntriesOver(sha1, map[], events + [e]) == EntriesAfter(sha1, EntriesOver(sha1, map[], events), e)
  {
  }

  lemma ThreeEvents(sha1: Sha1Hex, x: InformerEvent, y: InformerEvent, z: InformerEvent)
    ensures LiveOver([x, y, z]) == LiveAfter(LiveAfter(LiveAfter(map[], x), y), z)
    ensures EntriesOver(sha1, map[], [x, y, z]) ==
            EntriesAfter(sha1, EntriesAfter(sha1, EntriesAfter(sha1, map[], x), y), z)
  {
    hide LiveAfter, EntriesAfter, LiveOver, EntriesOver;
    NoEvents(sha1);
    OneMore(sha1, [], x);
    OneMore(sha1, [x], y);
    OneMore(sha1, [x, y], z);
    assert [] + [x] == [x] && [x] + [y] == [x, y] && [x, y] + [z] == [x, y, z];
  }

  lemma NoEvents(sha1: Sha1Hex)
    ensures LiveOver([]) == map[] && EntriesOver(sha1, map[], []) == map[]
  {
  }

  lemma BothForgotten(sha1: Sha1Hex, a: Definition, b: Definition)
    requires a.meterName == b.meterName && Served(a) && Served(b)
    ensures EntriesAfter(sha1, EntriesAfter(sha1, EntriesAfter(sha1, map[], Changed(a)), Changed(b)), Removed(a)) == map[]
  {
  }

  lemma OneLeft(a: Definition, b: Definition)
    requires a.name != b.name
    ensures LiveAfter(LiveAfter(LiveAfter(map[], Changed(a)), Changed(b)), Removed(a)) == map[b.name := b]
  {
  }

  /** Without distinct meterNames the cache forgets: removing one of two definitions that share a
      meterName removes the other's entry. */
  lemma SharedMeterNameForgotten(sha1: Sha1Hex, a: Definition, b: Definition)
    requires a.name != b.name && a.meterName == b.meterName && Served(a) && Served(b)
    ensures LiveOver([Changed(a), Changed(b), Removed(a)]) == map[b.name := b]
    ensures EntriesOver(sha1, map[], [Changed(a), Changed(b), Removed(a)]) == map[]
  {
    hide MeterAPIName, LiveOver, EntriesOver, LiveAfter, EntriesAfter;
    ThreeEvents(sha1, Changed(a), Changed(b), Removed(a));
    BothForgotten(sha1, a, b);
    OneLeft(a, b);
  }

  // ---- the exact condition ------------------------------------------------

  /** Every event is about a definition that bears the meterName it was given for good. */
  predicate NamedBy(naming: map<string, string>, events: seq<InformerEvent>) {
    forall k | 0 <= k < |events| :: BearsName(naming, About(events[k]))
  }

  function About(e: InformerEvent): Definition { if e.Changed? then e.d else e.last }

  predicate BearsName(naming: map<string, string>, d: Definition) {
    d.name in naming && naming[d.name] == d.meterName
  }

  predicate Injective(naming: map<string, string>) {
    forall a, b | a in naming && b in naming && naming[a] == naming[b] :: a == b
  }

  /** A removal of something that does not exist removes nobody's entry. */
  lemma StrayRemoval(sha1: Sha1Hex, entries: map<string, string>, live: Live, naming: map<string, string>, d: Definition)
    requires Reflects(sha1, entries, live) && Injective(naming) && BearsName(naming, d) && d.name !in live
    requires forall k | k in live :: live[k].name == k && BearsName(naming, live[k])
    ensures EntriesAfter(sha1, entries, Removed(d)) == entries && LiveAfter(live, Removed(d)) == live
  {
    assert forall name :: !ServedAs(live, d.meterName, name);
    assert d.meterName !in entries;
  }

  lemma {:induction false} InjectiveReflects(sha1: Sha1Hex, naming: map<string, string>, events: seq<InformerEvent>)
    requires Injective(naming) && NamedBy(naming, events)
    ensures Reflects(sha1, EntriesOver(sha1, map[], events), LiveOver(events))
    ensures forall k | k in LiveOver(events) :: LiveOver(events)[k].name == k && BearsName(naming, LiveOver(events)[k])
  {
    if events != [] {
      hide MeterAPIName, AccountedFor, Listed;
      var n := |events| - 1;
      InjectiveReflects(sha1, naming, events[..n]);
      var entries, live, e := EntriesOver(sha1, map[], events[..n]), LiveOver(events[..n]), events[n];
      assert BearsName(naming, About(e));
      if e.Removed? && e.last.name !in live {
        StrayRemoval(sha1, entries, live, naming, e.last);
      } else {
        StepReflects(sha1, entries, live, e);
      }
    }
  }

  /** The cache reflects the live definitions after every sequence of events, in whatever phases and
      order, if and only if no two definitions are given one meterName. */
  lemma CacheReflectsExactly(sha1: Sha1Hex, naming: map<string, string>)
    ensures (forall events | NamedBy(naming, events) :: Reflects(sha1, EntriesOver(sha1, map[], events), LiveOver(events)))
            <==> Injective(naming)
  {
    hide MeterAPIName, EntriesOver, LiveOver, Reflects;
    if Injective(naming) {
      forall events | NamedBy(naming, events) ensures Reflects(sha1, EntriesOver(sha1, map[], events), LiveOver(events)) {
        InjectiveReflects(sha1, naming, events);
      }
    } else {
      var x, y :| x in naming && y in naming && naming[x] == naming[y] && x != y;
      var a, b := Definition(x, naming[x], Published), Definition(y, naming[y], Published);
      var events := [Changed(a), Changed(b), Removed(a)];
      SharedMeterNameForgotten(sha1, a, b);
      ServedNeedsEntry(sha1, b);
      assert NamedBy(naming, events);
    }
  }

  lemma ServedNeedsEntry(sha1: Sha1Hex, d: Definition)
    requires Served(d)
    ensures !Reflects(sha1, map[], map[d.name := d])
  {
    var live := map[d.name := d];
    assert d.name in live && Served(live[d.name]) && !Listed(sha1, map[], live, d.name);
  }
}
