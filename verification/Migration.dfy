/** Moving schedules from one backend to another while any call may fail (flow/scheduler.go). */
module Migration {
  import opened Wrappers

  /** A schedule: its specification, the other settings that creating one takes, and the rest. */
  datatype Schedule = Schedule(spec: Option<string>, settings: string, rest: string)

  const ZERO_SPEC := ""

  /** What a schedule is created as from the description of another one. */
  function Copy(s: Schedule): Schedule {
    Schedule(Some(if s.spec == None then ZERO_SPEC else s.spec.value), s.settings, "")
  }

  /** How the surroundings answer one call: whether it reports success, whether it takes effect
      although it reports an error, what a listing lists, whether the caller's check says ignore. */
  datatype Answer = Answer(ok: bool, effective: bool, listing: seq<string>, ignore: bool)

  type Schedules = map<string, Schedule>

  /** Both backends, and what is still to be answered. */
  datatype World = World(source: Schedules, target: Schedules, answers: seq<Answer>)

  /** The outcome of a call or of a part of a migration. Stopped means that there is no answer yet:
      it is where the migration stands when the answers given so far are used up. */
  datatype Outcome<T> = Stopped | Failed | Done(value: T)

  datatype Step<T> = Step(outcome: Outcome<T>, world: World)

  // What each call does.

  function Asked(w: World): World
    requires w.answers != []
  {
    w.(answers := w.answers[1..])
  }

  function ListOf(w: World): Step<seq<string>> {
    if w.answers == [] then Step(Stopped, w)
    else Step(if w.answers[0].ok then Done(w.answers[0].listing) else Failed, Asked(w))
  }

  /** Fetching the next entry of a listing. */
  function NextOf(w: World): Step<bool> {
    if w.answers == [] then Step(Stopped, w)
    else Step(if w.answers[0].ok then Done(true) else Failed, Asked(w))
  }

  function DescribeOf(w: World, schedules: Schedules, id: string): Step<Schedule> {
    if w.answers == [] then Step(Stopped, w)
    else Step(if w.answers[0].ok && id in schedules then Done(schedules[id]) else Failed, Asked(w))
  }

  /** The caller's check: whether to ignore an entry. */
  function CheckOf(w: World): Step<bool> {
    if w.answers == [] then Step(Stopped, w) else Step(Done(w.answers[0].ignore), Asked(w))
  }

  /** Creating a schedule unless there is one of that name. */
  function CreateOf(w: World, id: string, s: Schedule): Step<bool> {
    if w.answers == [] then Step(Stopped, w)
    else if id in w.target then Step(Failed, Asked(w))
    else
      var a := w.answers[0];
      Step(if a.ok then Done(true) else Failed,
           if a.ok || a.effective then Asked(w).(target := w.target[id := s]) else Asked(w))
  }

  function DeleteOf(w: World, id: string): Step<bool> {
    if w.answers == [] then Step(Stopped, w)
    else
      var a := w.answers[0];
      Step(if a.ok then Done(true) else Failed,
           if a.ok || a.effective then Asked(w).(source := w.source - {id}) else Asked(w))
  }

  // What the migration does.

  /** An outcome that is not a success, of another type. */
  function Fail<S, T>(o: Outcome<S>): Outcome<T>
    requires !o.Done?
  {
    if o.Stopped? then Stopped else Failed
  }

  /** One entry of a listing; the result tells whether it was ignored. */
  function EntryOf(w: World, id: string, deleteSource: bool): Step<bool> {
    var ent := NextOf(w);
    if !ent.outcome.Done? then Step(Fail(ent.outcome), ent.world)
    else
      var there := DescribeOf(ent.world, w.target, id);
      if there.outcome.Stopped? then Step(Stopped, there.world)
      else if there.outcome.Done? then Removal(there.world, id, deleteSource)
      else
        var ignore := CheckOf(there.world);
        if ignore.outcome != Done(false) then ignore
        else Transfer(ignore.world, id, deleteSource)
  }

  /** Copying a schedule that the target does not seem to have. */
  function Transfer(w: World, id: string, deleteSource: bool): Step<bool> {
    var desc := DescribeOf(w, w.source, id);
    if !desc.outcome.Done? then Step(Fail(desc.outcome), desc.world)
    else
      var created := CreateOf(desc.world, id, Copy(desc.outcome.value));
      if !created.outcome.Done? then created else Removal(created.world, id, deleteSource)
  }

  /** Deleting what the target has, if asked to. */
  function Removal(w: World, id: string, deleteSource: bool): Step<bool> {
    if !deleteSource then Step(Done(false), w)
    else
      var deleted := DeleteOf(w, id);
      if deleted.outcome.Done? then Step(Done(false), deleted.world) else deleted
  }

  /** An entry that was looked at: the state before, and whether it was ignored. */
  datatype Seen = Seen(before: World, ignored: bool)

  /** The entries of a listing one after the other. */
  function EntriesOf(w: World, listing: seq<string>, deleteSource: bool): Step<seq<Seen>>
    decreases |listing|
  {
    if listing == [] then Step(Done([]), w)
    else
      var one := EntryOf(w, listing[0], deleteSource);
      if !one.outcome.Done? then Step(Fail(one.outcome), one.world)
      else
        var rest := EntriesOf(one.world, listing[1..], deleteSource);
        if !rest.outcome.Done? then rest
        else Step(Done([Seen(w, one.outcome.value)] + rest.outcome.value), rest.world)
  }

  /** A pass that completed: the state before, what was listed, what was seen, the state after. */
  datatype Pass = Pass(before: World, listing: seq<string>, seen: seq<Seen>, after: World)

  /** A migration: how it ends, the passes it completed, and for each listing what the source held. */
  datatype Migrated = Migrated(outcome: Outcome<bool>, world: World, passes: seq<Pass>, listed: seq<(Schedules, seq<string>)>)

  function MigrateOf(w: World, deleteSource: bool): Migrated
    decreases |w.answers|
  {
    var l := ListOf(w);
    if !l.outcome.Done? then Migrated(Fail(l.outcome), l.world, [], [])
    else
      var listing := l.outcome.value;
      var p := EntriesOf(l.world, listing, deleteSource);
      PassUsesAnswers(l.world, listing, deleteSource);
      if !p.outcome.Done? then Migrated(Fail(p.outcome), p.world, [], [(w.source, listing)])
      else
        var pass := Pass(l.world, listing, p.outcome.value, p.world);
        if |listing| == 0 then Migrated(Done(true), p.world, [pass], [(w.source, listing)])
        else
          var rest := MigrateOf(p.world, deleteSource);
          rest.(passes := [pass] + rest.passes, listed := [(w.source, listing)] + rest.listed)
  }

  lemma EntryUsesAnswers(w: World, id: string, deleteSource: bool)
    ensures |EntryOf(w, id, deleteSource).world.answers| <= |w.answers|
  {
  }

  lemma {:induction false} PassUsesAnswers(w: World, listing: seq<string>, deleteSource: bool)
    ensures |EntriesOf(w, listing, deleteSource).world.answers| <= |w.answers|
    decreases |listing|
  {
    if listing != [] {
      EntryUsesAnswers(w, listing[0], deleteSource);
      var one := EntryOf(w, listing[0], deleteSource);
      if one.outcome.Done? {
        PassUsesAnswers(one.world, listing[1..], deleteSource);
      }
    }
  }

  // The migrator.

  class Backend {
    var schedules: Schedules

    constructor (schedules: Schedules)
      ensures this.schedules == schedules
    {
      this.schedules := schedules;
    }
  }

  class SchedulerMigrator {
    const source: Backend
    const target: Backend
    var answers: seq<Answer>

    constructor (source: Backend, target: Backend, answers: seq<Answer>)
      ensures this.source == source && this.target == target && this.answers == answers
    {
      this.source, this.target, this.answers := source, target, answers;
    }

    /** The state of everything. */
    function View(): World
      reads this, source, target
    {
      World(source.schedules, target.schedules, answers)
    }

    method Ask() returns (a: Option<Answer>)
      modifies this`answers
      ensures if old(answers) == [] then a == None && answers == [] else a == Some(old(answers)[0]) && answers == old(answers)[1..]
    {
      if answers == [] {
        return None;
      }
      a := Some(answers[0]);
      answers := answers[1..];
    }

    // The backends' calls.

    method List() returns (r: Outcome<seq<string>>)
      modifies this`answers
      ensures Step(r, View()) == ListOf(old(View()))
    {
      var a := Ask();
      if a == None {
        return Stopped;
      }
      return if a.value.ok then Done(a.value.listing) else Failed;
    }

    method Next() returns (r: Outcome<bool>)
      modifies this`answers
      ensures Step(r, View()) == NextOf(old(View()))
    {
      var a := Ask();
      if a == None {
        return Stopped;
      }
      return if a.value.ok then Done(true) else Failed;
    }

    method Describe(b: Backend, id: string) returns (r: Outcome<Schedule>)
      modifies this`answers
      ensures Step(r, View()) == DescribeOf(old(View()), b.schedules, id)
    {
      var a := Ask();
      if a == None {
        return Stopped;
      }
      return if a.value.ok && id in b.schedules then Done(b.schedules[id]) else Failed;
    }

    method Check() returns (r: Outcome<bool>)
      modifies this`answers
      ensures Step(r, View()) == CheckOf(old(View()))
    {
      var a := Ask();
      if a == None {
        return Stopped;
      }
      return Done(a.value.ignore);
    }

    method Create(id: string, s: Schedule) returns (r: Outcome<bool>)
      requires source != target
      modifies this`answers, target
      ensures Step(r, View()) == CreateOf(old(View()), id, s)
    {
      var a := Ask();
      if a == None {
        return Stopped;
      }
      if id in target.schedules {
        return Failed;
      }
      if a.value.ok || a.value.effective {
        target.schedules := target.schedules[id := s];
      }
      return if a.value.ok then Done(true) else Failed;
    }

    method Delete(id: string) returns (r: Outcome<bool>)
      requires source != target
      modifies this`answers, source
      ensures Step(r, View()) == DeleteOf(old(View()), id)
    {
      var a := Ask();
      if a == None {
        return Stopped;
      }
      if a.value.ok || a.value.effective {
        source.schedules := source.schedules - {id};
      }
      return if a.value.ok then Done(true) else Failed;
    }

    // The migration.

    method MigrateEntry(id: string, deleteSource: bool) returns (r: Outcome<bool>)
      requires source != target
      modifies this`answers, source, target
      ensures Step(r, View()) == EntryOf(old(View()), id, deleteSource)
    {
      var ent := Next();
      if !ent.Done? {
        return Fail(ent);
      }
      var there := Describe(target, id);
      if there.Stopped? {
        return Stopped;
      }
      if there.Done? {
        if deleteSource {
          var deleted := Delete(id);
          return if deleted.Done? then Done(false) else deleted;
        }
        return Done(false);
      }
      var ignore := Check();
      if ignore != Done(false) {
        return ignore;
      }
      var desc := Describe(source, id);
      if !desc.Done? {
        return Fail(desc);
      }
      var created := Create(id, Copy(desc.value));
      if !created.Done? {
        return created;
      }
      if deleteSource {
        var deleted := Delete(id);
        return if deleted.Done? then Done(false) else deleted;
      }
      return Done(false);
    }

    /** The inner loop: one pass over a listing. */
    method MigrateListing(listing: seq<string>, deleteSource: bool) returns (r: Outcome<int>, ghost seen: seq<Seen>)
      requires source != target
      modifies this`answers, source, target
      ensures r.Done? ==> r.value == |listing|
      ensures var p := EntriesOf(old(View()), listing, deleteSource);
              View() == p.world && if r.Done? then p.outcome == Done(seen) else !p.outcome.Done? && r == Fail(p.outcome)
    {
      ghost var pass := EntriesOf(View(), listing, deleteSource);
      var count := 0;
      seen := [];
      StartPass(pass, listing);
      while count < |listing|
        invariant 0 <= count <= |listing|
        invariant GoesOn(pass, seen, EntriesOf(View(), listing[count..], deleteSource))
      {
        var one, now := MigrateNext(pass, seen, listing, count, deleteSource);
        if !one.Done? {
          return Fail(one), seen;
        }
        seen := now;
        count := count + 1;
      }
      EndPass(pass, seen);
      return Done(count), seen;
    }

    method MigrateNext(ghost pass: Step<seq<Seen>>, ghost seen: seq<Seen>, listing: seq<string>, count: nat, deleteSource: bool)
      returns (one: Outcome<bool>, ghost now: seq<Seen>)
      requires source != target && count < |listing| && GoesOn(pass, seen, EntriesOf(View(), listing[count..], deleteSource))
      modifies this`answers, source, target
      ensures one.Done? ==> GoesOn(pass, now, EntriesOf(View(), listing[count + 1..], deleteSource))
      ensures !one.Done? ==> pass.world == View() && !pass.outcome.Done? && Fail<seq<Seen>, int>(pass.outcome) == Fail(one)
    {
      ghost var before, left := View(), listing[count..];
      assert left[0] == listing[count] && left[1..] == listing[count + 1..];
      one := MigrateEntry(listing[count], deleteSource);
      now := seen;
      if one.Done? {
        OneSeen(pass, seen, before, left, one.value, View(), deleteSource);
        now := seen + [Seen(before, one.value)];
      } else {
        LastSeen(pass, seen, before, left, one, View(), deleteSource);
      }
    }

    /** Passes until a listing is empty. */
    method Migrate(deleteSource: bool) returns (r: Outcome<bool>, ghost passes: seq<Pass>, ghost listed: seq<(Schedules, seq<string>)>)
      requires source != target
      modifies this`answers, source, target
      ensures Migrated(r, View(), passes, listed) == MigrateOf(old(View()), deleteSource)
    {
      ghost var run := MigrateOf(View(), deleteSource);
      passes, listed := [], [];
      while true
        invariant Continues(run, passes, listed, MigrateOf(View(), deleteSource))
        decreases |answers|
      {
        ghost var start := View();
        var listing := List();
        if !listing.Done? {
          return Fail(listing), passes, listed;
        }
        ghost var before := View();
        PassUsesAnswers(before, listing.value, deleteSource);
        var pass, seen := MigrateListing(listing.value, deleteSource);
        listed := listed + [(start.source, listing.value)];
        if !pass.Done? {
          return Fail(pass), passes, listed;
        }
        OnePass(run, passes, listed[..|listed| - 1], start, seen, View(), deleteSource);
        passes := passes + [Pass(before, listing.value, seen, View())];
        if pass.value == 0 {
          return Done(true), passes, listed;
        }
      }
    }
  }

  /** A pass has seen some entries, and goes on as another one. */
  ghost predicate GoesOn(pass: Step<seq<Seen>>, seen: seq<Seen>, rest: Step<seq<Seen>>) {
    && pass.world == rest.world
    && if rest.outcome.Done? then pass.outcome == Done(seen + rest.outcome.value) else pass.outcome == rest.outcome
  }

  lemma LastSeen(pass: Step<seq<Seen>>, seen: seq<Seen>, w: World, listing: seq<string>, o: Outcome<bool>, v: World, deleteSource: bool)
    requires listing != [] && GoesOn(pass, seen, EntriesOf(w, listing, deleteSource))
    requires EntryOf(w, listing[0], deleteSource) == Step(o, v) && !o.Done?
    ensures pass.world == v && !pass.outcome.Done? && Fail<seq<Seen>, int>(pass.outcome) == Fail<bool, int>(o)
  {
  }

  lemma StartPass(pass: Step<seq<Seen>>, listing: seq<string>)
    ensures GoesOn(pass, [], pass) && listing[0..] == listing
  {
    if pass.outcome.Done? {
      assert [] + pass.outcome.value == pass.outcome.value;
    }
  }

  lemma EndPass(pass: Step<seq<Seen>>, seen: seq<Seen>)
    ensures forall w :: GoesOn(pass, seen, Step(Done([]), w)) ==> pass.outcome == Done(seen)
  {
    assert seen + [] == seen;
  }

  lemma OneSeen(pass: Step<seq<Seen>>, seen: seq<Seen>, w: World, listing: seq<string>, ignored: bool, v: World, deleteSource: bool)
    requires listing != [] && GoesOn(pass, seen, EntriesOf(w, listing, deleteSource))
    requires EntryOf(w, listing[0], deleteSource) == Step(Done(ignored), v)
    ensures GoesOn(pass, seen + [Seen(w, ignored)], EntriesOf(v, listing[1..], deleteSource))
  {
    var rest := EntriesOf(v, listing[1..], deleteSource);
    if rest.outcome.Done? {
      Regroup(seen, [Seen(w, ignored)], rest.outcome.value, []);
    }
  }

  /** A run has completed some passes and seen some listings, and goes on as another one. */
  ghost predicate Continues(run: Migrated, passes: seq<Pass>, listed: seq<(Schedules, seq<string>)>, rest: Migrated) {
    && run.outcome == rest.outcome && run.world == rest.world
    && run.passes == passes + rest.passes && run.listed == listed + rest.listed
  }

  lemma OnePass(run: Migrated, passes: seq<Pass>, listed: seq<(Schedules, seq<string>)>, w: World, seen: seq<Seen>,
                after: World, deleteSource: bool)
    requires Continues(run, passes, listed, MigrateOf(w, deleteSource)) && ListOf(w).outcome.Done?
    requires EntriesOf(ListOf(w).world, ListOf(w).outcome.value, deleteSource) == Step(Done(seen), after)
    ensures var listing := ListOf(w).outcome.value;
            var passes', listed' := passes + [Pass(ListOf(w).world, listing, seen, after)], listed + [(w.source, listing)];
            if listing == [] then run == Migrated(Done(true), after, passes', listed')
            else Continues(run, passes', listed', MigrateOf(after, deleteSource))
  {
    var l := ListOf(w);
    var listing := l.outcome.value;
    PassUsesAnswers(l.world, listing, deleteSource);
    var rest := MigrateOf(after, deleteSource);
    Regroup(passes, [Pass(l.world, listing, seen, after)], rest.passes, []);
    Regroup(listed, [(w.source, listing)], rest.listed, []);
  }
}
