/**
 Which selection of meeting-consumer profiles is valid: the resolver's loops over
 maps, decided against a declarative reference.
 */
module ConsumerProfiles {
  import opened Options

  type Name = string

  datatype Sink = MeetingText | MeetingVoice | ListenerNotice | OtherSink(name: string)
  datatype Capability = MeetingOutput | ListenerOutput | OtherCapability(name: string)
  datatype ResponseMode = Silent | ListenerThread

  datatype Profile = Profile(id: Name, agent: Name, capabilities: seq<Capability>, sinks: seq<Sink>, mode: ResponseMode)

  /** `profiles` and `defaults` are None when the field is absent. */
  datatype Config = Config(profiles: Option<seq<Profile>>, defaults: Option<seq<Name>>, agentsMode: bool)

  datatype Problem =
    | ProfilesRequired
    | BadId(index: nat) | DuplicateId(index: nat) | BadSink(index: nat) | MissingCapability(index: nat)
    | UnknownDefault(index: nat) | EmptySelection
    | DuplicateSelection(index: nat) | UnknownSelection(index: nat)
    | SharedAgent(first: Name, second: Name) | SharedSink(first: Name, second: Name, sink: Sink)
    | SecondListener(first: Name, second: Name)

  datatype Resolution = Legacy | Selected(profiles: seq<Profile>) | Invalid(errors: seq<Problem>)

  const MAX_ID := 64

  // ---------------------------------------------------------------------------
  // Reference
  // ---------------------------------------------------------------------------

  predicate Alphanumeric(c: char) {
    'A' <= c <= 'Z' || 'a' <= c <= 'z' || '0' <= c <= '9'
  }

  predicate Reserved(id: Name) {
    id == "__proto__" || id == "prototype" || id == "constructor"
  }

  predicate ValidId(id: Name) {
    && 1 <= |id| <= MAX_ID && Alphanumeric(id[0])
    && (forall k :: 0 <= k < |id| ==> Alphanumeric(id[k]) || id[k] == '.' || id[k] == '_' || id[k] == '-')
    && !Reserved(id)
  }

  predicate ValidSink(profile: Profile, sink: Sink) {
    (sink.MeetingText? || sink.MeetingVoice?) && MeetingOutput in profile.capabilities
  }

  /** Every sink and listener role has its capability. */
  predicate ValidProfile(profile: Profile) {
    && ValidId(profile.id)
    && (forall k :: 0 <= k < |profile.sinks| ==> ValidSink(profile, profile.sinks[k]))
    && (profile.mode.ListenerThread? ==> ListenerOutput in profile.capabilities)
  }

  predicate ValidProfiles(profiles: seq<Profile>) {
    && (forall k :: 0 <= k < |profiles| ==> ValidProfile(profiles[k]))
    && (forall j, k :: 0 <= j < k < |profiles| ==> profiles[j].id != profiles[k].id)
  }

  function Lookup(profiles: seq<Profile>, id: Name): (r: Option<Profile>)
    ensures r.Some? ==> r.value in profiles && r.value.id == id
    ensures r.None? ==> forall k :: 0 <= k < |profiles| ==> profiles[k].id != id
  {
    if profiles == [] then None
    else
      var n := |profiles| - 1;
      assert forall k :: 0 <= k < n ==> profiles[..n][k] == profiles[k];
      var before := Lookup(profiles[..n], id);
      if before.Some? then before else if profiles[n].id == id then Some(profiles[n]) else None
  }

  predicate AllKnown(profiles: seq<Profile>, ids: seq<Name>) {
    forall k :: 0 <= k < |ids| ==> Lookup(profiles, ids[k]).Some?
  }

  function LookupAll(profiles: seq<Profile>, ids: seq<Name>): (r: seq<Profile>)
    requires AllKnown(profiles, ids)
    ensures |r| == |ids|
  {
    seq(|ids|, k requires 0 <= k < |ids| => Lookup(profiles, ids[k]).value)
  }

  /** No sink is owned twice, by two selected profiles or by one. */
  predicate SinksUnshared(selected: seq<Profile>) {
    && (forall j, k, x, y :: 0 <= j < k < |selected| && 0 <= x < |selected[j].sinks| && 0 <= y < |selected[k].sinks|
          ==> selected[j].sinks[x] != selected[k].sinks[y])
    && (forall k :: 0 <= k < |selected| ==> OwnSinksDistinct(selected[k]))
  }

  predicate OwnSinksDistinct(profile: Profile) {
    forall x, y :: 0 <= x < y < |profile.sinks| ==> profile.sinks[x] != profile.sinks[y]
  }

  predicate ValidSelection(profiles: seq<Profile>, ids: seq<Name>) {
    && (forall j, k :: 0 <= j < k < |ids| ==> ids[j] != ids[k])
    && AllKnown(profiles, ids)
    && var selected := LookupAll(profiles, ids);
    && (forall j, k :: 0 <= j < k < |selected| ==> selected[j].agent != selected[k].agent)
    && SinksUnshared(selected)
    && (forall j, k :: 0 <= j < k < |selected| ==> selected[j].mode.Silent? || selected[k].mode.Silent?)
  }

  function SelectedIds(config: Config, explicit: Option<seq<Name>>): seq<Name> {
    if explicit.Some? then explicit.value else if config.defaults.Some? then config.defaults.value else []
  }

  /** When profile mode accepts a selection. */
  predicate Acceptable(config: Config, profiles: seq<Profile>, explicit: Option<seq<Name>>) {
    && ValidProfiles(profiles)
    && (config.defaults.Some? ==> AllKnown(profiles, config.defaults.value))
    && (explicit.None? && config.agentsMode ==> SelectedIds(config, explicit) != [])
    && ValidSelection(profiles, SelectedIds(config, explicit))
  }

  // ---------------------------------------------------------------------------
  // The first pass: the profiles themselves
  // ---------------------------------------------------------------------------

  /** `byId` holds each id once, with the first profile that has it. */
  ghost predicate Indexes(byId: map<Name, Profile>, profiles: seq<Profile>) {
    forall id :: (id in byId <==> Lookup(profiles, id).Some?) && (id in byId ==> Lookup(profiles, id) == Some(byId[id]))
  }

  lemma LookupMore(profiles: seq<Profile>, profile: Profile, id: Name)
    ensures Lookup(profiles + [profile], id)
         == if Lookup(profiles, id).Some? then Lookup(profiles, id) else if profile.id == id then Some(profile) else None
  {
    assert (profiles + [profile])[..|profiles|] == profiles;
  }

  lemma ValidMore(profiles: seq<Profile>, profile: Profile)
    ensures ValidProfiles(profiles + [profile])
       <==> ValidProfiles(profiles) && ValidProfile(profile) && Lookup(profiles, profile.id).None?
  {
    var more := profiles + [profile];
    assert forall k :: 0 <= k < |profiles| ==> more[k] == profiles[k];
    assert more[|profiles|] == profile;
    if Lookup(profiles, profile.id).Some? {
      var k :| 0 <= k < |profiles| && profiles[k] == Lookup(profiles, profile.id).value;
      assert more[k].id == more[|profiles|].id;
    }
  }

  method CheckSinks(profile: Profile, index: nat) returns (errors: seq<Problem>)
    ensures errors == [] <==> forall k :: 0 <= k < |profile.sinks| ==> ValidSink(profile, profile.sinks[k])
  {
    errors := [];
    for k := 0 to |profile.sinks|
      invariant errors == [] <==> forall j :: 0 <= j < k ==> ValidSink(profile, profile.sinks[j])
    {
      var sink := profile.sinks[k];
      if sink.ListenerNotice? {
        errors := errors + [BadSink(index)];
      } else if !(sink.MeetingText? || sink.MeetingVoice?) {
        errors := errors + [BadSink(index)];
      } else if MeetingOutput !in profile.capabilities {
        errors := errors + [MissingCapability(index)];
      }
    }
  }

  method CheckProfiles(profiles: seq<Profile>) returns (errors: seq<Problem>, byId: map<Name, Profile>)
    ensures errors == [] <==> ValidProfiles(profiles)
    ensures Indexes(byId, profiles)
  {
    errors, byId := [], map[];
    for index := 0 to |profiles|
      invariant errors == [] <==> ValidProfiles(profiles[..index])
      invariant Indexes(byId, profiles[..index])
    {
      var profile := profiles[index];
      var found := [];
      if !ValidId(profile.id) {
        found := found + [BadId(index)];
      }
      if profile.id in byId {
        found := found + [DuplicateId(index)];
      } else {
        byId := byId[profile.id := profile];
      }
      var sinkErrors := CheckSinks(profile, index);
      found := found + sinkErrors;
      if profile.mode.ListenerThread? && ListenerOutput !in profile.capabilities {
        found := found + [MissingCapability(index)];
      }
      errors := errors + found;
      assert profiles[..index + 1] == profiles[..index] + [profile];
      ValidMore(profiles[..index], profile);
      forall id ensures Lookup(profiles[..index + 1], id)
          == if Lookup(profiles[..index], id).Some? then Lookup(profiles[..index], id) else if profile.id == id then Some(profile) else None {
        LookupMore(profiles[..index], profile, id);
      }
    }
    assert profiles[..|profiles|] == profiles;
  }

  // ---------------------------------------------------------------------------
  // The second pass: the selection
  // ---------------------------------------------------------------------------

  /** The selection so far, and what the maps remember of it. */
  datatype Remembered = Remembered(
    selected: seq<Profile>, seen: set<Name>, byAgent: map<Name, Name>, bySink: map<Sink, Name>, listener: Option<Name>)

  ghost predicate Remembers(r: Remembered, profiles: seq<Profile>, ids: seq<Name>)
    requires AllKnown(profiles, ids)
  {
    && r.selected == LookupAll(profiles, ids)
    && (forall id :: id in r.seen <==> id in ids)
    && (forall agent :: agent in r.byAgent <==> exists k :: 0 <= k < |r.selected| && r.selected[k].agent == agent)
    && (forall sink :: sink in r.bySink <==> exists k :: 0 <= k < |r.selected| && sink in r.selected[k].sinks)
    && (r.listener.Some? <==> exists k :: 0 <= k < |r.selected| && r.selected[k].mode.ListenerThread?)
  }

  /** What one more id must satisfy. */
  ghost predicate Joins(profiles: seq<Profile>, ids: seq<Name>, id: Name)
    requires AllKnown(profiles, ids)
  {
    && id !in ids && Lookup(profiles, id).Some?
    && var selected, profile := LookupAll(profiles, ids), Lookup(profiles, id).value;
    && (forall k :: 0 <= k < |selected| ==> selected[k].agent != profile.agent)
    && (forall k, y :: 0 <= k < |selected| && 0 <= y < |profile.sinks| ==> profile.sinks[y] !in selected[k].sinks)
    && OwnSinksDistinct(profile)
    && (profile.mode.ListenerThread? ==> forall k :: 0 <= k < |selected| ==> selected[k].mode.Silent?)
  }

  lemma KnownMore(profiles: seq<Profile>, ids: seq<Name>, id: Name)
    ensures AllKnown(profiles, ids + [id]) <==> AllKnown(profiles, ids) && Lookup(profiles, id).Some?
    ensures AllKnown(profiles, ids + [id]) ==>
              LookupAll(profiles, ids + [id]) == LookupAll(profiles, ids) + [Lookup(profiles, id).value]
  {
    var more := ids + [id];
    assert more[|ids|] == id && forall k :: 0 <= k < |ids| ==> more[k] == ids[k];
  }

  lemma SelectionMore(profiles: seq<Profile>, ids: seq<Name>, id: Name)
    ensures ValidSelection(profiles, ids + [id]) <==> ValidSelection(profiles, ids) && Joins(profiles, ids, id)
  {
    KnownMore(profiles, ids, id);
    if AllKnown(profiles, ids) && Lookup(profiles, id).Some? {
      JoinedSelection(LookupAll(profiles, ids), Lookup(profiles, id).value);
      DistinctMore(ids, id);
    }
  }

  lemma DistinctMore(ids: seq<Name>, id: Name)
    ensures (forall j, k :: 0 <= j < k < |ids + [id]| ==> (ids + [id])[j] != (ids + [id])[k])
       <==> (forall j, k :: 0 <= j < k < |ids| ==> ids[j] != ids[k]) && id !in ids
  {
    var more := ids + [id];
    assert more[|ids|] == id && forall k :: 0 <= k < |ids| ==> more[k] == ids[k];
    if forall j, k :: 0 <= j < k < |more| ==> more[j] != more[k] {
      forall k | 0 <= k < |ids| ensures ids[k] != id {
        assert more[k] != more[|ids|];
      }
    }
  }

  lemma JoinedSelection(selected: seq<Profile>, profile: Profile)
    ensures var more := selected + [profile];
      && ((forall j, k :: 0 <= j < k < |more| ==> more[j].agent != more[k].agent)
          <==> (forall j, k :: 0 <= j < k < |selected| ==> selected[j].agent != selected[k].agent)
               && (forall k :: 0 <= k < |selected| ==> selected[k].agent != profile.agent))
      && (SinksUnshared(more)
          <==> SinksUnshared(selected) && OwnSinksDistinct(profile)
               && (forall k, y :: 0 <= k < |selected| && 0 <= y < |profile.sinks| ==> profile.sinks[y] !in selected[k].sinks))
      && ((forall j, k :: 0 <= j < k < |more| ==> more[j].mode.Silent? || more[k].mode.Silent?)
          <==> (forall j, k :: 0 <= j < k < |selected| ==> selected[j].mode.Silent? || selected[k].mode.Silent?)
               && (profile.mode.ListenerThread? ==> forall k :: 0 <= k < |selected| ==> selected[k].mode.Silent?))
  {
    JoinedSinks(selected, profile);
    var more := selected + [profile];
    assert more[|selected|] == profile && forall k :: 0 <= k < |selected| ==> more[k] == selected[k];
  }

  lemma JoinedSinks(selected: seq<Profile>, profile: Profile)
    ensures SinksUnshared(selected + [profile])
       <==> SinksUnshared(selected) && OwnSinksDistinct(profile)
            && (forall k, y :: 0 <= k < |selected| && 0 <= y < |profile.sinks| ==> profile.sinks[y] !in selected[k].sinks)
  {
    var more := selected + [profile];
    assert more[|selected|] == profile && forall k :: 0 <= k < |selected| ==> more[k] == selected[k];
    if SinksUnshared(more) {
      forall k, y | 0 <= k < |selected| && 0 <= y < |profile.sinks| ensures profile.sinks[y] !in selected[k].sinks {
        assert forall x :: 0 <= x < |selected[k].sinks| ==> more[k].sinks[x] != more[|selected|].sinks[y];
      }
    }
  }

  /** Sinks that can be claimed one after another. */
  predicate Claimable(sinks: seq<Sink>, owners: map<Sink, Name>) {
    && (forall x, y :: 0 <= x < y < |sinks| ==> sinks[x] != sinks[y])
    && (forall y :: 0 <= y < |sinks| ==> sinks[y] !in owners)
  }

  lemma ClaimMore(sinks: seq<Sink>, sink: Sink, owners: map<Sink, Name>)
    ensures Claimable(sinks + [sink], owners) <==> Claimable(sinks, owners) && sink !in owners && sink !in sinks
  {
    var more := sinks + [sink];
    assert more[|sinks|] == sink && forall k :: 0 <= k < |sinks| ==> more[k] == sinks[k];
    if Claimable(more, owners) {
      assert forall k :: 0 <= k < |sinks| ==> more[k] != more[|sinks|];
    }
  }

  method ClaimSinks(profile: Profile, owners: map<Sink, Name>) returns (errors: seq<Problem>, bySink: map<Sink, Name>)
    ensures errors == [] <==> Claimable(profile.sinks, owners)
    ensures forall sink :: sink in bySink <==> sink in owners || sink in profile.sinks
  {
    errors, bySink := [], owners;
    for k := 0 to |profile.sinks|
      invariant errors == [] <==> Claimable(profile.sinks[..k], owners)
      invariant forall sink :: sink in bySink <==> sink in owners || sink in profile.sinks[..k]
    {
      var sink := profile.sinks[k];
      assert profile.sinks[..k + 1] == profile.sinks[..k] + [sink];
      ClaimMore(profile.sinks[..k], sink, owners);
      if sink in bySink {
        errors := errors + [SharedSink(bySink[sink], profile.id, sink)];
      } else {
        bySink := bySink[sink := profile.id];
      }
    }
    assert profile.sinks[..|profile.sinks|] == profile.sinks;
  }

  /** One turn of the selection loop. Once an error was found the maps may lag
      behind; the selection is refused whatever follows. */
  method SelectOne(byId: map<Name, Profile>, id: Name, index: nat, was: Remembered, ghost profiles: seq<Profile>, ghost ids: seq<Name>)
    returns (errors: seq<Problem>, now: Remembered)
    requires Indexes(byId, profiles)
    ensures ValidSelection(profiles, ids) && Remembers(was, profiles, ids) ==>
      (errors == [] <==> Joins(profiles, ids, id))
    ensures ValidSelection(profiles, ids) && Remembers(was, profiles, ids) && errors == [] ==>
      AllKnown(profiles, ids + [id]) && Remembers(now, profiles, ids + [id])
  {
    errors, now := [], was;
    if id in was.seen {
      return [DuplicateSelection(index)], now;
    }
    now := now.(seen := now.seen + {id});
    if id !in byId {
      return [UnknownSelection(index)], now;
    }
    var profile := byId[id];
    now := now.(selected := now.selected + [profile]);
    if profile.agent in now.byAgent {
      errors := errors + [SharedAgent(now.byAgent[profile.agent], profile.id)];
    } else {
      now := now.(byAgent := now.byAgent[profile.agent := profile.id]);
    }
    var sinkErrors, bySink := ClaimSinks(profile, now.bySink);
    errors := errors + sinkErrors;
    now := now.(bySink := bySink);
    if profile.mode.ListenerThread? {
      if now.listener.Some? {
        errors := errors + [SecondListener(now.listener.value, profile.id)];
      } else {
        now := now.(listener := Some(profile.id));
      }
    }
    if ValidSelection(profiles, ids) && Remembers(was, profiles, ids) {
      JoinDecided(was, profiles, ids, id, profile);
      if errors == [] {
        KnownMore(profiles, ids, id);
        RememberMore(was, now, profiles, ids, id, profile);
      }
    }
  }

  lemma JoinDecided(was: Remembered, profiles: seq<Profile>, ids: seq<Name>, id: Name, profile: Profile)
    requires AllKnown(profiles, ids) && Remembers(was, profiles, ids) && id !in ids && Lookup(profiles, id) == Some(profile)
    ensures Joins(profiles, ids, id) <==>
      && profile.agent !in was.byAgent
      && Claimable(profile.sinks, was.bySink)
      && (profile.mode.ListenerThread? ==> was.listener.None?)
  {
  }

  lemma RememberMore(was: Remembered, now: Remembered, profiles: seq<Profile>, ids: seq<Name>, id: Name, profile: Profile)
    requires AllKnown(profiles, ids) && Remembers(was, profiles, ids) && Lookup(profiles, id) == Some(profile)
    requires now.selected == was.selected + [profile] && now.seen == was.seen + {id}
    requires forall agent :: agent in now.byAgent <==> agent in was.byAgent || agent == profile.agent
    requires forall sink :: sink in now.bySink <==> sink in was.bySink || sink in profile.sinks
    requires now.listener.Some? <==> was.listener.Some? || profile.mode.ListenerThread?
    ensures AllKnown(profiles, ids + [id]) && Remembers(now, profiles, ids + [id])
  {
    KnownMore(profiles, ids, id);
    var selected := now.selected;
    assert selected[|was.selected|] == profile && forall k :: 0 <= k < |was.selected| ==> selected[k] == was.selected[k];
    forall agent ensures agent in now.byAgent <==> exists k :: 0 <= k < |selected| && selected[k].agent == agent {
      if agent in was.byAgent {
        var k :| 0 <= k < |was.selected| && was.selected[k].agent == agent;
        assert selected[k].agent == agent;
      }
    }
    forall sink ensures sink in now.bySink <==> exists k :: 0 <= k < |selected| && sink in selected[k].sinks {
      if sink in was.bySink {
        var k :| 0 <= k < |was.selected| && sink in was.selected[k].sinks;
        assert sink in selected[k].sinks;
      }
    }
    if was.listener.Some? {
      var k :| 0 <= k < |was.selected| && was.selected[k].mode.ListenerThread?;
      assert selected[k].mode.ListenerThread?;
    }
  }

  method CheckSelection(byId: map<Name, Profile>, ids: seq<Name>, ghost profiles: seq<Profile>)
    returns (errors: seq<Problem>, selected: seq<Profile>)
    requires Indexes(byId, profiles)
    ensures errors == [] <==> ValidSelection(profiles, ids)
    ensures errors == [] ==> selected == LookupAll(profiles, ids)
  {
    errors := [];
    var state := Remembered([], {}, map[], map[], None);
    for index := 0 to |ids|
      invariant errors == [] <==> ValidSelection(profiles, ids[..index])
      invariant errors == [] ==> Remembers(state, profiles, ids[..index])
    {
      var found;
      found, state := SelectOne(byId, ids[index], index, state, profiles, ids[..index]);
      assert ids[..index + 1] == ids[..index] + [ids[index]];
      SelectionMore(profiles, ids[..index], ids[index]);
      errors := errors + found;
    }
    assert ids[..|ids|] == ids;
    selected := state.selected;
  }

  // ---------------------------------------------------------------------------
  // The resolver
  // ---------------------------------------------------------------------------

  function IdsOf(profiles: seq<Profile>): (r: seq<Name>)
    ensures |r| == |profiles|
  {
    seq(|profiles|, k requires 0 <= k < |profiles| => profiles[k].id)
  }

  lemma KnownIds(profiles: seq<Profile>, ids: seq<Name>)
    ensures AllKnown(profiles, ids) <==> forall k :: 0 <= k < |ids| ==> ids[k] in IdsOf(profiles)
  {
    forall id ensures Lookup(profiles, id).Some? <==> id in IdsOf(profiles) {
      if Lookup(profiles, id).Some? {
        var k :| 0 <= k < |profiles| && profiles[k] == Lookup(profiles, id).value;
        assert IdsOf(profiles)[k] == id;
      }
    }
  }

  method CheckDefaults(byId: map<Name, Profile>, defaults: Option<seq<Name>>, ghost profiles: seq<Profile>) returns (errors: seq<Problem>)
    requires Indexes(byId, profiles)
    ensures errors == [] <==> (defaults.Some? ==> AllKnown(profiles, defaults.value))
  {
    errors := [];
    if defaults.Some? {
      var ids := defaults.value;
      for index := 0 to |ids|
        invariant errors == [] <==> forall k :: 0 <= k < index ==> Lookup(profiles, ids[k]).Some?
      {
        if ids[index] !in byId {
          errors := errors + [UnknownDefault(index)];
        }
      }
    }
  }

  /** The resolution is decided exactly: in profile mode it is accepted if and only
      if the reference accepts it, and then the selection is the in-order lookup.
      An explicit selection, also an empty one, goes before the defaults, which
      must still be known. */
  method ResolveConsumerProfiles(config: Config, explicit: Option<seq<Name>>) returns (r: Resolution)
    ensures config.profiles.None? ==>
      r == if config.agentsMode || config.defaults.Some? then Invalid([ProfilesRequired]) else Legacy
    ensures config.profiles.Some? ==> (r.Selected? <==> Acceptable(config, config.profiles.value, explicit))
    ensures config.profiles.Some? ==> (r.Invalid? <==> !r.Selected?)
    ensures r.Invalid? ==> r.errors != []
    ensures config.profiles.Some? && r.Selected? ==>
      r.profiles == LookupAll(config.profiles.value, SelectedIds(config, explicit))
    ensures config.profiles.Some? && explicit.Some? ==>
      (r.Selected? <==>
        && ValidProfiles(config.profiles.value) && ValidSelection(config.profiles.value, explicit.value)
        && (config.defaults.Some? ==>
              forall k :: 0 <= k < |config.defaults.value| ==> config.defaults.value[k] in IdsOf(config.profiles.value)))
    ensures config.profiles.Some? && explicit.None? && config.defaults.Some? ==>
      (r.Selected? <==>
        && ValidProfiles(config.profiles.value) && ValidSelection(config.profiles.value, config.defaults.value)
        && (config.agentsMode ==> config.defaults.value != []))
    ensures config.profiles.Some? && explicit.None? && config.defaults.None? ==>
      (r.Selected? <==> ValidProfiles(config.profiles.value) && !config.agentsMode)
    ensures r.Selected? ==>
      && (forall profile :: profile in r.profiles ==> profile in config.profiles.value)
      && (explicit.Some? ==> IdsOf(r.profiles) == explicit.value)
      && (explicit.None? && config.defaults.Some? ==> IdsOf(r.profiles) == config.defaults.value)
      && (explicit.None? && config.defaults.None? ==> r.profiles == [])
  {
    if config.profiles.None? {
      return if config.agentsMode || config.defaults.Some? then Invalid([ProfilesRequired]) else Legacy;
    }
    var profiles := config.profiles.value;
    var errors, byId := CheckProfiles(profiles);
    var unknown := CheckDefaults(byId, config.defaults, profiles);
    var ids := SelectedIds(config, explicit);
    var empty := if explicit.None? && config.agentsMode && |ids| == 0 then [EmptySelection] else [];
    var conflicts, selected := CheckSelection(byId, ids, profiles);
    errors := errors + unknown + empty + conflicts;
    if config.defaults.Some? {
      KnownIds(profiles, config.defaults.value);
    }
    r := if |errors| > 0 then Invalid(errors) else Selected(selected);
  }

  /** With valid profiles, an id names at most one profile, so the in-order lookup
      is the only sequence of profiles with the selected ids. */
  lemma SelectionIsDetermined(profiles: seq<Profile>, ids: seq<Name>, selected: seq<Profile>)
    requires ValidProfiles(profiles) && |selected| == |ids|
    requires forall k :: 0 <= k < |ids| ==> selected[k] in profiles && selected[k].id == ids[k]
    ensures AllKnown(profiles, ids) && selected == LookupAll(profiles, ids)
  {
    forall k | 0 <= k < |ids| ensures Lookup(profiles, ids[k]) == Some(selected[k]) {
      var i :| 0 <= i < |profiles| && profiles[i] == selected[k];
      assert Lookup(profiles, ids[k]).Some?;
      var j :| 0 <= j < |profiles| && profiles[j] == Lookup(profiles, ids[k]).value;
      assert i == j;
    }
  }
}
