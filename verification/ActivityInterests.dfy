/** Reconciling a profile's activity interests with a requested list, in place
    (account-profile/internal/domain/account_profile.go). */
module ActivityInterests {
  import opened Wrappers

  type ActivityType = nat
  type ActivityLevel = nat
  type LevelMap = map<ActivityType, ActivityLevel>

  datatype Event =
    | InterestAdded(activityType: ActivityType, level: ActivityLevel)
    | InterestRemoved(activityType: ActivityType, level: ActivityLevel)
    | LevelChanged(activityType: ActivityType, oldLevel: ActivityLevel, newLevel: ActivityLevel)

  datatype Error = ProfileDeleted | DuplicateInterests | InterestNotFound

  // ---- Lists of interests as values ----

  datatype Entry = Entry(activityType: ActivityType, level: ActivityLevel)

  predicate DistinctTypes(entries: seq<Entry>) {
    forall i, j :: 0 <= i < j < |entries| ==> entries[i].activityType != entries[j].activityType
  }

  /** Type to level; the last entry of a type wins. */
  function Levels(entries: seq<Entry>): LevelMap {
    if entries == [] then map[]
    else Levels(entries[..|entries| - 1])[entries[|entries| - 1].activityType := entries[|entries| - 1].level]
  }

  predicate HasType(entries: seq<Entry>, t: ActivityType) {
    exists i :: 0 <= i < |entries| && entries[i].activityType == t
  }

  lemma {:induction false} LevelsHas(entries: seq<Entry>, t: ActivityType)
    ensures t in Levels(entries) <==> HasType(entries, t)
    ensures DistinctTypes(entries) ==> forall i :: 0 <= i < |entries| && entries[i].activityType == t ==>
      Levels(entries)[t] == entries[i].level
  {
    if entries != [] {
      var init, last := entries[..|entries| - 1], entries[|entries| - 1];
      LevelsHas(init, t);
      assert entries == init + [last];
      if HasType(init, t) {
        var i :| 0 <= i < |init| && init[i].activityType == t;
        assert entries[i].activityType == t;
      }
    }
  }

  lemma LevelsAre(entries: seq<Entry>, levels: LevelMap)
    requires DistinctTypes(entries)
    requires forall t :: t in levels <==> HasType(entries, t)
    requires forall i :: 0 <= i < |entries| && entries[i].activityType in levels ==>
      levels[entries[i].activityType] == entries[i].level
    ensures Levels(entries) == levels
  {
    forall t ensures t in Levels(entries) <==> t in levels {
      LevelsHas(entries, t);
    }
    forall t | t in levels ensures Levels(entries)[t] == levels[t] {
      LevelsHas(entries, t);
      var i :| 0 <= i < |entries| && entries[i].activityType == t;
    }
  }

  lemma LevelsWithout(entries: seq<Entry>, i: nat)
    requires DistinctTypes(entries) && i < |entries|
    ensures var left := entries[..i] + entries[i + 1..];
      DistinctTypes(left) && Levels(left) == Levels(entries) - {entries[i].activityType}
  {
    var left := entries[..i] + entries[i + 1..];
    var levels := Levels(entries) - {entries[i].activityType};
    assert forall k :: 0 <= k < |left| ==> left[k] == entries[if k < i then k else k + 1];
    forall t ensures t in levels <==> HasType(left, t) {
      LevelsHas(entries, t);
      if HasType(entries, t) && t != entries[i].activityType {
        var k :| 0 <= k < |entries| && entries[k].activityType == t;
        assert left[if k < i then k else k - 1].activityType == t;
      }
      if HasType(left, t) {
        var k :| 0 <= k < |left| && left[k].activityType == t;
        assert entries[if k < i then k else k + 1].activityType == t;
      }
    }
    forall k | 0 <= k < |left| && left[k].activityType in levels ensures levels[left[k].activityType] == left[k].level {
      LevelsHas(entries, left[k].activityType);
    }
    LevelsAre(left, levels);
  }

  lemma LevelsChanged(entries: seq<Entry>, i: nat, level: ActivityLevel)
    requires DistinctTypes(entries) && i < |entries|
    ensures var changed := entries[i := entries[i].(level := level)];
      DistinctTypes(changed) && Levels(changed) == Levels(entries)[entries[i].activityType := level]
  {
    var changed := entries[i := entries[i].(level := level)];
    var levels := Levels(entries)[entries[i].activityType := level];
    LevelsHas(entries, entries[i].activityType);
    forall t ensures t in levels <==> HasType(changed, t) {
      LevelsHas(entries, t);
      if HasType(entries, t) {
        var k :| 0 <= k < |entries| && entries[k].activityType == t;
        assert changed[k].activityType == t;
      }
      if HasType(changed, t) {
        var k :| 0 <= k < |changed| && changed[k].activityType == t;
        assert entries[k].activityType == t;
      }
    }
    forall k | 0 <= k < |changed| && changed[k].activityType in levels
      ensures levels[changed[k].activityType] == changed[k].level {
      LevelsHas(entries, changed[k].activityType);
    }
    LevelsAre(changed, levels);
  }

  // ---- Replaying events ----

  function Replayed(levels: LevelMap, e: Event): LevelMap {
    match e
    case InterestAdded(t, level) => levels[t := level]
    case InterestRemoved(t, _) => levels - {t}
    case LevelChanged(t, _, newLevel) => levels[t := newLevel]
  }

  /** The levels after the events, taking the new level of a change. */
  function Replay(levels: LevelMap, events: seq<Event>): LevelMap {
    if events == [] then levels else Replayed(Replay(levels, events[..|events| - 1]), events[|events| - 1])
  }

  /** The events since a point, replayed on the levels of that point, give the levels now. */
  ghost predicate Explained(since: nat, had: LevelMap, events: seq<Event>, levels: LevelMap) {
    since <= |events| && Replay(had, events[since..]) == levels
  }

  lemma OneMoreExplained(since: nat, had: LevelMap, events: seq<Event>, e: Event, levels: LevelMap)
    requires Explained(since, had, events, levels)
    ensures Explained(since, had, events + [e], Replayed(levels, e))
  {
    var said := events[since..];
    assert (events + [e])[since..] == said + [e];
    assert (said + [e])[..|said|] == said;
  }

  // ---- The profile ----

  class ActivityInterest {
    const activityType: ActivityType
    var level: ActivityLevel

    constructor (activityType: ActivityType, level: ActivityLevel)
      ensures this.activityType == activityType && this.level == level
    {
      this.activityType, this.level := activityType, level;
    }
  }

  function Entries(interests: seq<ActivityInterest>): (r: seq<Entry>)
    reads interests
    ensures |r| == |interests|
    ensures forall i :: 0 <= i < |r| ==> r[i] == Entry(interests[i].activityType, interests[i].level)
  {
    seq(|interests|, i requires 0 <= i < |interests| reads interests =>
      Entry(interests[i].activityType, interests[i].level))
  }

  /** The interests by type; of several with the same type the last. */
  method ByType(interests: seq<ActivityInterest>) returns (byType: map<ActivityType, ActivityInterest>)
    ensures byType.Keys == Levels(Entries(interests)).Keys
    ensures forall t :: t in byType ==>
      byType[t] in interests && byType[t].activityType == t && byType[t].level == Levels(Entries(interests))[t]
  {
    byType := map[];
    for i := 0 to |interests|
      invariant byType.Keys == Levels(Entries(interests)[..i]).Keys
      invariant forall t :: t in byType ==>
        byType[t] in interests && byType[t].activityType == t && byType[t].level == Levels(Entries(interests)[..i])[t]
    {
      assert Entries(interests)[..i + 1][..i] == Entries(interests)[..i];
      byType := byType[interests[i].activityType := interests[i]];
    }
    assert Entries(interests)[..|interests|] == Entries(interests);
  }

  class AccountProfile {
    var deleted: bool
    var interests: seq<ActivityInterest>
    var events: seq<Event>

    function Current(): LevelMap
      reads this, interests
    {
      Levels(Entries(interests))
    }

    ghost predicate Valid()
      reads this, interests
    {
      DistinctTypes(Entries(interests))
    }

    method AddActivityInterest(interest: ActivityInterest) returns (err: Option<Error>)
      requires Valid()
      modifies this`interests, this`events
      ensures Valid()
      ensures deleted || interest.activityType in old(Current()) ==>
        err == Some(if deleted then ProfileDeleted else DuplicateInterests) && interests == old(interests)
          && events == old(events)
      ensures !deleted && interest.activityType !in old(Current()) ==>
        && err == None && interests == old(interests) + [interest]
        && Current() == old(Current())[interest.activityType := interest.level]
        && events == old(events) + [InterestAdded(interest.activityType, interest.level)]
    {
      if deleted { return Some(ProfileDeleted); }
      LevelsHas(Entries(interests), interest.activityType);
      for i := 0 to |interests|
        invariant forall j :: 0 <= j < i ==> interests[j].activityType != interest.activityType
      {
        if interests[i].activityType == interest.activityType {
          assert Entries(interests)[i].activityType == interest.activityType;
          return Some(DuplicateInterests);
        }
      }
      interests := interests + [interest];
      events := events + [InterestAdded(interest.activityType, interest.level)];
      assert Entries(interests) == old(Entries(interests)) + [Entry(interest.activityType, interest.level)];
      assert Entries(interests)[..|interests| - 1] == old(Entries(interests));
      return None;
    }

    method RemoveActivityInterest(activityType: ActivityType) returns (err: Option<Error>)
      requires Valid()
      modifies this`interests, this`events
      ensures Valid()
      ensures deleted || activityType !in old(Current()) ==>
        err == Some(if deleted then ProfileDeleted else InterestNotFound) && interests == old(interests)
          && events == old(events)
      ensures !deleted && activityType in old(Current()) ==>
        && err == None
        && (forall i :: 0 <= i < |interests| ==> interests[i] in old(interests))
        && (forall x :: x in old(interests) && x.activityType != activityType ==> x in interests)
        && Current() == old(Current()) - {activityType}
        && events == old(events) + [InterestRemoved(activityType, old(Current())[activityType])]
    {
      if deleted { return Some(ProfileDeleted); }
      LevelsHas(Entries(interests), activityType);
      for i := 0 to |interests|
        invariant forall j :: 0 <= j < i ==> interests[j].activityType != activityType
      {
        var existing := interests[i];
        if existing.activityType == activityType {
          assert Entries(interests)[i].activityType == activityType;
          LevelsWithout(Entries(interests), i);
          interests := interests[..i] + interests[i + 1..];
          events := events + [InterestRemoved(activityType, existing.level)];
          assert Entries(interests) == old(Entries(interests))[..i] + old(Entries(interests))[i + 1..];
          return None;
        }
      }
      return Some(InterestNotFound);
    }

    /** The level is changed in place, and the event's old level is read after that. */
    method UpdateActivityInterestLevel(activityType: ActivityType, level: ActivityLevel) returns (err: Option<Error>)
      requires Valid()
      modifies this`events, set x | x in interests && x.activityType == activityType
      ensures Valid()
      ensures deleted || activityType !in old(Current()) ==>
        err == Some(if deleted then ProfileDeleted else InterestNotFound) && events == old(events)
          && Current() == old(Current())
      ensures !deleted && activityType in old(Current()) ==>
        && err == None
        && Current() == old(Current())[activityType := level]
        && events == old(events) + (if old(Current())[activityType] == level then []
          else [LevelChanged(activityType, level, level)])
    {
      if deleted { return Some(ProfileDeleted); }
      LevelsHas(Entries(interests), activityType);
      var i := 0;
      while i < |interests| && interests[i].activityType != activityType
        invariant 0 <= i <= |interests|
        invariant forall j :: 0 <= j < i ==> interests[j].activityType != activityType
      {
        i := i + 1;
      }
      if i == |interests| { return Some(InterestNotFound); }
      assert Entries(interests)[i].activityType == activityType;
      LevelsChanged(Entries(interests), i, level);
      var existing := interests[i];
      if existing.level == level {
        assert Entries(interests)[i := Entries(interests)[i].(level := level)] == Entries(interests);
        return None;
      }
      interests[i].level := level;
      events := events + [LevelChanged(activityType, existing.level, level)];
      OnlyOneChanged(interests, old(Entries(interests)), i, level);
      return None;
    }

    /** What is not requested any more is removed, in whatever order. */
    method RemoveUnrequested(existing: set<ActivityType>, wanted: set<ActivityType>, ghost had: LevelMap,
                             ghost since: nat)
      requires Valid() && !deleted && existing == had.Keys && Current() == had && Explained(since, had, events, had)
      modifies this`interests, this`events
      ensures Valid() && forall i :: 0 <= i < |interests| ==> interests[i] in old(interests)
      ensures forall x :: x in old(interests) && x.activityType in wanted ==> x in interests
      ensures Current() == Kept(had, wanted)
      ensures old(events) <= events && Explained(since, had, events, Current())
    {
      hide Explained, Levels, DistinctTypes, Entries;
      var todo := existing;
      assert Kept(had, wanted + todo) == had;
      while todo != {}
        invariant Valid() && !deleted && todo <= had.Keys
        invariant forall i :: 0 <= i < |interests| ==> interests[i] in old(interests)
        invariant forall x :: x in old(interests) && x.activityType in wanted ==> x in interests
        invariant Current() == Kept(had, wanted + todo)
        invariant old(events) <= events && Explained(since, had, events, Current())
        decreases |todo|
      {
        var t :| t in todo;
        ghost var before, said, doing := Current(), events, todo;
        todo := todo - {t};
        if t !in wanted {
          var err := RemoveActivityInterest(t);
          OneMoreExplained(since, had, said, InterestRemoved(t, had[t]), before);
          assert before - {t} == Kept(had, wanted + todo);
        } else {
          assert wanted + todo == wanted + doing;
        }
      }
      assert wanted + {} == wanted;
    }

    /** One requested type is added, or its interest there already is brought to the level. */
    method ApplyOne(interest: ActivityInterest, existing: ActivityInterest?, ghost had: LevelMap,
                    ghost wanted: LevelMap,
                    ghost todo: set<ActivityType>, ghost since: nat)
      requires Valid() && !deleted && (existing != null <==> interest.activityType in had)
      requires existing != null ==> existing in interests && existing.activityType == interest.activityType
      requires interest.activityType in wanted && interest.level == wanted[interest.activityType]
        && interest.activityType !in todo
      requires Current() == Mixed(had, wanted, todo + {interest.activityType})
        && Explained(since, had, events, Current())
      modifies this`interests, this`events, set x | x in interests && x.activityType == interest.activityType
        && existing != null
      ensures Valid() && interests == (if existing != null then old(interests) else old(interests) + [interest])
      ensures Current() == Mixed(had, wanted, todo)
      ensures old(events) <= events && Explained(since, had, events, Current())
    {
      ghost var t, before, said := interest.activityType, Current(), events;
      assert before[t := wanted[t]] == Mixed(had, wanted, todo);
      if existing == null {
        var err := AddActivityInterest(interest);
        OneMoreExplained(since, had, said, InterestAdded(t, interest.level), before);
      } else {
        LevelOf(interests, existing);
        if existing.level != interest.level {
          var level := interest.level;
          var err := UpdateActivityInterestLevel(interest.activityType, level);
          OneMoreExplained(since, had, said, LevelChanged(t, level, level), before);
        }
      }
    }

    /** What is requested is added or brought to its level, in whatever order. */
    method ApplyRequested(newByType: map<ActivityType, ActivityInterest>,
                          existingByType: map<ActivityType, ActivityInterest>,
                          ghost had: LevelMap, ghost wanted: LevelMap, ghost since: nat)
      requires Valid() && !deleted && existingByType.Keys == had.Keys && newByType.Keys == wanted.Keys
      requires forall t :: t in newByType ==> newByType[t].activityType == t && newByType[t].level == wanted[t]
      requires forall t :: t in existingByType && t in newByType ==>
        existingByType[t].activityType == t && existingByType[t] in interests
      requires Current() == Kept(had, wanted.Keys) && Explained(since, had, events, Current())
      modifies this`interests, this`events, interests
      ensures Valid() && Current() == wanted
      ensures old(events) <= events && Explained(since, had, events, Current())
    {
      hide Explained, Levels, DistinctTypes, Entries, Mixed, Kept;
      var todo := newByType.Keys;
      MixedEnds(had, wanted);
      while todo != {}
        invariant Valid() && !deleted && todo <= wanted.Keys
        invariant forall x :: x in interests ==> x in old(interests) || x.activityType !in had
        invariant forall x :: x in old(interests) ==> x in interests
        invariant forall t :: t in todo ==> newByType[t].level == wanted[t]
        invariant Current() == Mixed(had, wanted, todo)
        invariant old(events) <= events && Explained(since, had, events, Current())
        decreases |todo|
      {
        var t :| t in todo;
        ghost var doing := todo;
        todo := todo - {t};
        assert todo + {t} == doing;
        ApplyOne(newByType[t], if t in existingByType then existingByType[t] else null, had, wanted, todo, since);
      }
    }

    /** Whatever order the two maps are walked in, the profile ends up with exactly the requested
        types and levels, and replaying the events on the old levels gives the new. */
    method UpdateActivityInterests(newInterests: seq<ActivityInterest>) returns (err: Option<Error>)
      requires Valid()
      modifies this`interests, this`events, interests
      ensures Valid()
      ensures old(deleted) ==>
        err == Some(ProfileDeleted) && interests == old(interests) && events == old(events)
          && Current() == old(Current())
      ensures !old(deleted) ==>
        && err == None
        && Current() == old(Levels(Entries(newInterests)))
        && old(events) <= events && Replay(old(Current()), events[|old(events)|..]) == Current()
    {
      if deleted { return Some(ProfileDeleted); }
      var existingByType := ByType(interests);
      var newByType := ByType(newInterests);
      ghost var had, wanted, since := Current(), Levels(Entries(newInterests)), |events|;
      assert events[since..] == [];
      RemoveUnrequested(existingByType.Keys, newByType.Keys, had, since);
      ApplyRequested(newByType, existingByType, had, wanted, since);
      return None;
    }
  }

  /** The levels of the wanted types among those there were. */
  function Kept(had: LevelMap, wanted: set<ActivityType>): LevelMap {
    map t | t in had && t in wanted :: had[t]
  }

  /** The requested levels, those still to do as they were. */
  function Mixed(had: LevelMap, wanted: LevelMap, todo: set<ActivityType>): LevelMap {
    map t | t in wanted && (t !in todo || t in had) :: if t in todo then had[t] else wanted[t]
  }

  lemma MixedEnds(had: LevelMap, wanted: LevelMap)
    ensures Mixed(had, wanted, wanted.Keys) == Kept(had, wanted.Keys)
    ensures Mixed(had, wanted, {}) == wanted
  {
  }

  lemma LevelOf(interests: seq<ActivityInterest>, interest: ActivityInterest)
    requires DistinctTypes(Entries(interests)) && interest in interests
    ensures interest.activityType in Levels(Entries(interests))
    ensures Levels(Entries(interests))[interest.activityType] == interest.level
  {
    var i :| 0 <= i < |interests| && interests[i] == interest;
    LevelsHas(Entries(interests), interest.activityType);
    assert Entries(interests)[i].activityType == interest.activityType;
  }

  lemma OnlyOneChanged(interests: seq<ActivityInterest>, was: seq<Entry>, i: nat, level: ActivityLevel)
    requires |was| == |interests| && i < |was| && interests[i].level == level
    requires forall k :: 0 <= k < |was| ==> interests[k].activityType == was[k].activityType
    requires forall k :: 0 <= k < |was| && k != i ==> interests[k].level == was[k].level
    ensures Entries(interests) == was[i := was[i].(level := level)]
  {
  }
}
