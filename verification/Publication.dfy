/** Publishing an export at a path that may be claimed by anybody at any moment: a hard link where
    the file system has them, else an exclusive reservation that is renamed over. */
module Publication {
  import opened Common

  type Exporter = nat
  type Inode = nat

  /** An exporter's marker names its temporary file, so no other writer produces those bytes. */
  datatype Content = Empty | Torn | Marker(owner: Exporter) | Archive(owner: Exporter) | Data(bytes: string)

  /** Where an exporter is between two system calls. */
  datatype Phase =
    | Ready
    | LinkFailed
    | Absent
    | Opened(inode: Inode)
    | Written(inode: Inode)
    | Reserved(inode: Inode)
    | Cleanup(inode: Inode)
    | Removing(inode: Inode)
    | Published
    | Failed

  /** The destination's directory entry, the files, and the exporters; a crashed one is gone. */
  datatype State = State(entry: Option<Inode>, files: map<Inode, Content>, next: Inode, exporters: map<Exporter, Phase>)

  /** System calls with their outcome, and what others do. `ok` is whether the call succeeds where the
      directory entry lets it; the rest of what decides is in the state. */
  datatype Event =
    | Start(e: Exporter)
    | Link(e: Exporter, ok: bool)
    | Inspect(e: Exporter, ok: bool)
    | MoveNoReplace(e: Exporter, ok: bool)
    | OpenExclusive(e: Exporter, ok: bool)
    | WriteMarker(e: Exporter, ok: bool)
    | SyncAndClose(e: Exporter, ok: bool)
    | Rename(e: Exporter, ok: bool)
    | ReadBack(e: Exporter, ok: bool)
    | Remove(e: Exporter, ok: bool)
    | Crash(e: Exporter)
    | Create(bytes: string)
    | Rewrite(bytes: string)
    | Delete

  predicate InPhase(s: State, e: Exporter, p: Phase) {
    e in s.exporters && s.exporters[e] == p
  }

  function Goes(s: State, e: Exporter, p: Phase): State {
    s.(exporters := s.exporters[e := p])
  }

  /** A new file at the destination. */
  function Put(s: State, content: Content): State {
    s.(entry := Some(s.next), files := s.files[s.next := content], next := s.next + 1)
  }

  function PhaseOf(s: State, e: Exporter): Phase {
    if e in s.exporters then s.exporters[e] else Failed
  }

  /** `publishExport`, `reserveExportDestination` and `removeExportReservation`, one call at a time. */
  function Step(s: State, event: Event): State {
    match event
    case Start(e) => if e in s.exporters then s else Goes(s, e, Ready)
    case Link(e, ok) =>
      if PhaseOf(s, e) != Ready then s
      else if ok && s.entry.None? then Goes(Put(s, Archive(e)), e, Published)
      else Goes(s, e, LinkFailed)
    case Inspect(e, ok) =>
      if PhaseOf(s, e) != LinkFailed then s
      else if ok && s.entry.None? then Goes(s, e, Absent)
      else Goes(s, e, Failed)
    case MoveNoReplace(e, ok) =>
      if PhaseOf(s, e) != Absent then s
      else if ok && s.entry.None? then Goes(Put(s, Archive(e)), e, Published)
      else Goes(s, e, Failed)
    case OpenExclusive(e, ok) =>
      if PhaseOf(s, e) != Absent then s
      else if ok && s.entry.None? then Goes(Put(s, Empty), e, Opened(s.next))
      else Goes(s, e, Failed)
    case WriteMarker(e, ok) =>
      if !PhaseOf(s, e).Opened? then s
      else
        var i := PhaseOf(s, e).inode;
        if ok then Goes(s.(files := s.files[i := Marker(e)]), e, Written(i))
        else Goes(s.(files := s.files[i := Torn]), e, Cleanup(i))
    case SyncAndClose(e, ok) =>
      if !PhaseOf(s, e).Written? then s
      else Goes(s, e, if ok then Reserved(PhaseOf(s, e).inode) else Cleanup(PhaseOf(s, e).inode))
    case Rename(e, ok) =>
      if !PhaseOf(s, e).Reserved? then s
      else if ok then Goes(Put(s, Archive(e)), e, Published)
      else Goes(s, e, Cleanup(PhaseOf(s, e).inode))
    case ReadBack(e, ok) =>
      if !PhaseOf(s, e).Cleanup? then s
      else if ok && s.entry.Some? && s.entry.value in s.files && s.files[s.entry.value] == Marker(e)
      then Goes(s, e, Removing(PhaseOf(s, e).inode))
      else Goes(s, e, Failed)
    case Remove(e, ok) =>
      if !PhaseOf(s, e).Removing? then s
      else Goes(if ok then s.(entry := None) else s, e, Failed)
    case Crash(e) => s.(exporters := s.exporters - {e})
    case Create(bytes) => if s.entry.None? then Put(s, Data(bytes)) else s
    case Rewrite(bytes) =>
      if s.entry.Some? && s.entry.value in s.files && s.files[s.entry.value].Data?
      then s.(files := s.files[s.entry.value := Data(bytes)]) else s
    case Delete => s.(entry := None)
  }

  function Run(s: State, events: seq<Event>): State
    decreases |events|
  {
    if events == [] then s else Step(Run(s, events[..|events| - 1]), events[|events| - 1])
  }

  // The invariant.

  /** The exporter is on the way to or from a reservation it made. */
  predicate Holds(p: Phase) {
    p.Opened? || p.Written? || p.Reserved? || p.Cleanup? || p.Removing?
  }

  /** The destination is the exporter's own unfinished reservation. */
  predicate OwnReservation(s: State, e: Exporter, i: Inode) {
    s.entry == Some(i) && i in s.files && (s.files[i] in {Empty, Torn, Marker(e)})
  }

  predicate Kept(s: State, e: Exporter) {
    s.entry.Some? && s.entry.value in s.files && s.files[s.entry.value] == Archive(e)
  }

  ghost predicate FilesKnown(s: State) {
    && (forall i :: i in s.files ==> i < s.next)
    && (s.entry.Some? ==> s.entry.value in s.files)
  }

  ghost predicate HoldersOwn(s: State) {
    forall e :: e in s.exporters && Holds(s.exporters[e]) ==> OwnReservation(s, e, s.exporters[e].inode)
  }

  ghost predicate PublishedKept(s: State) {
    forall e :: e in s.exporters && s.exporters[e].Published? ==> Kept(s, e)
  }

  ghost predicate OneHolder(exporters: map<Exporter, Phase>) {
    forall a, b {:trigger Holds(exporters[a]), Holds(exporters[b])} ::
      a in exporters && b in exporters && Holds(exporters[a]) && Holds(exporters[b]) ==> a == b
  }

  ghost predicate Inv(s: State) {
    FilesKnown(s) && HoldersOwn(s) && PublishedKept(s) && OneHolder(s.exporters)
  }

  predicate Deletes(event: Event) {
    event.Delete?
  }

  /** An exporter moves on without touching the file system, and without gaining a reservation. */
  lemma GoesKeeps(s: State, e: Exporter, p: Phase)
    requires Inv(s) && !p.Published?
    requires Holds(p) ==> Holds(PhaseOf(s, e)) && p.inode == PhaseOf(s, e).inode
    ensures Inv(Goes(s, e, p))
  {}

  /** Nobody holds or has published an absent destination. */
  lemma NobodyElse(s: State, e: Exporter)
    requires Inv(s) && (s.entry.None? || (e in s.exporters && Holds(s.exporters[e])))
    ensures forall x :: x in s.exporters && x != e ==> !Holds(s.exporters[x]) && !s.exporters[x].Published?
  {
    HolderIsNoArchive(s, e);
    forall x | x in s.exporters && x != e ensures !Holds(s.exporters[x]) && !s.exporters[x].Published? {
      PublishedIsArchive(s, x);
    }
  }

  lemma HolderIsNoArchive(s: State, e: Exporter)
    requires Inv(s)
    ensures e in s.exporters && Holds(s.exporters[e]) && s.entry.Some? ==> !s.files[s.entry.value].Archive?
  {}

  lemma PublishedIsArchive(s: State, x: Exporter)
    requires Inv(s)
    ensures x in s.exporters && s.exporters[x].Published? ==> s.entry.Some? && s.files[s.entry.value].Archive?
  {}

  /** A new file at a free destination, or over the exporter's own reservation. */
  lemma PutKeeps(s: State, e: Exporter, content: Content, p: Phase)
    requires Inv(s) && (s.entry.None? || (e in s.exporters && Holds(s.exporters[e])))
    requires (p == Published && content == Archive(e)) || (p == Opened(s.next) && content == Empty)
    ensures Inv(Goes(Put(s, content), e, p))
  {
    NobodyElse(s, e);
  }

  /** The holder writes into its own reservation. */
  lemma FillKeeps(s: State, e: Exporter, content: Content, p: Phase)
    requires Inv(s) && e in s.exporters && Holds(s.exporters[e]) && content in {Torn, Marker(e)}
    requires Holds(p) && p.inode == s.exporters[e].inode
    ensures Inv(Goes(s.(files := s.files[p.inode := content]), e, p))
  {
    NobodyElse(s, e);
  }

  lemma RemoveKeeps(s: State, e: Exporter)
    requires Inv(s) && e in s.exporters && Holds(s.exporters[e])
    ensures Inv(Goes(s.(entry := None), e, Failed))
  {
    NobodyElse(s, e);
  }

  lemma OthersKeep(s: State, event: Event)
    requires Inv(s) && (event.Crash? || event.Create? || event.Rewrite?)
    ensures Inv(Step(s, event))
  {
    if event.Create? && s.entry.None? {
      NobodyElse(s, s.next);
      forall x | x in s.exporters ensures !Holds(s.exporters[x]) && !s.exporters[x].Published? {}
    }
  }

  /** The invariant survives exporters, exclusive creators and crashes in any interleaving. */
  lemma StepKeeps(s: State, event: Event)
    requires Inv(s) && !Deletes(event)
    ensures Inv(Step(s, event))
  {
    hide Inv;
    if event.Crash? || event.Create? || event.Rewrite? {
      OthersKeep(s, event);
    } else {
      var e := event.e;
      var p := PhaseOf(s, e);
      var t := Step(s, event);
      if t == s {
      } else if (event.Link? || event.MoveNoReplace? || event.Rename?) && PhaseOf(t, e).Published? {
        PutKeeps(s, e, Archive(e), Published);
      } else if event.OpenExclusive? && PhaseOf(t, e).Opened? {
        PutKeeps(s, e, Empty, Opened(s.next));
      } else if event.WriteMarker? {
        FillKeeps(s, e, if event.ok then Marker(e) else Torn, PhaseOf(t, e));
      } else if event.Remove? && event.ok {
        RemoveKeeps(s, e);
      } else {
        GoesKeeps(s, e, PhaseOf(t, e));
      }
    }
  }

  lemma {:induction false} InvAlways(s: State, events: seq<Event>)
    requires Inv(s) && forall i :: 0 <= i < |events| ==> !Deletes(events[i])
    ensures Inv(Run(s, events))
    decreases |events|
  {
    hide Inv, Step;
    if events == [] {
    } else {
      InvAlways(s, events[..|events| - 1]);
      StepKeeps(Run(s, events[..|events| - 1]), events[|events| - 1]);
    }
  }

  // No overwrite.

  /** One step leaves an existing destination alone, unless it is the acting exporter's own
      unfinished reservation. */
  ghost predicate Respects(s: State, event: Event, t: State) {
    s.entry.Some? ==>
      || t.entry == s.entry
      || ((event.Rename? || event.Remove?) && OwnReservation(s, event.e, s.entry.value))
  }

  /** Nothing an exporter does replaces or removes a destination that is not its own reservation. */
  lemma NeverOverwrites(s: State, events: seq<Event>, event: Event)
    requires Inv(s) && !Deletes(event) && forall i :: 0 <= i < |events| ==> !Deletes(events[i])
    ensures Respects(Run(s, events), event, Step(Run(s, events), event))
  {
    InvAlways(s, events);
    hide Run;
  }

  // Whatever others do, deletions included.

  /** An exporter's open reservation is a file of its own, wherever the entry points by now. */
  ghost predicate HandlesOwn(s: State) {
    && (forall i :: i in s.files ==> i < s.next)
    && (s.entry.Some? ==> s.entry.value in s.files)
    && (forall e :: e in s.exporters && Holds(s.exporters[e]) ==>
          s.exporters[e].inode in s.files && s.files[s.exporters[e].inode] in {Empty, Torn, Marker(e)})
    && OneHandle(s.exporters)
  }

  ghost predicate OneHandle(exporters: map<Exporter, Phase>) {
    forall a, b {:trigger Holds(exporters[a]), Holds(exporters[b])} ::
      a in exporters && b in exporters && a != b && Holds(exporters[a]) && Holds(exporters[b]) ==>
        exporters[a].inode != exporters[b].inode
  }

  lemma HandlesMove(s: State, e: Exporter, p: Phase)
    requires HandlesOwn(s)
    requires Holds(p) ==> Holds(PhaseOf(s, e)) && p.inode == PhaseOf(s, e).inode
    ensures HandlesOwn(Goes(s, e, p)) && HandlesOwn(Goes(s.(entry := None), e, p))
  {}

  lemma HandlesPut(s: State, e: Exporter, content: Content, p: Phase)
    requires HandlesOwn(s) && (Holds(p) ==> p.inode == s.next && content == Empty)
    ensures HandlesOwn(Goes(Put(s, content), e, p))
  {}

  lemma HandlesFill(s: State, e: Exporter, content: Content, p: Phase)
    requires HandlesOwn(s) && e in s.exporters && Holds(s.exporters[e]) && content in {Torn, Marker(e)}
    requires Holds(p) && p.inode == s.exporters[e].inode
    ensures HandlesOwn(Goes(s.(files := s.files[p.inode := content]), e, p))
  {}

  lemma HandlesOthers(s: State, event: Event)
    requires HandlesOwn(s) && (event.Crash? || event.Create? || event.Rewrite? || event.Delete?)
    ensures HandlesOwn(Step(s, event))
  {}

  lemma HandlesStep(s: State, event: Event)
    requires HandlesOwn(s)
    ensures HandlesOwn(Step(s, event))
  {
    hide HandlesOwn;
    if event.Crash? || event.Create? || event.Rewrite? || event.Delete? {
      HandlesOthers(s, event);
    } else {
      var e := event.e;
      var p := PhaseOf(s, e);
      var t := Step(s, event);
      if t == s {
      } else if (event.Link? || event.MoveNoReplace? || event.Rename?) && PhaseOf(t, e).Published? {
        HandlesPut(s, e, Archive(e), Published);
      } else if event.OpenExclusive? && PhaseOf(t, e).Opened? {
        HandlesPut(s, e, Empty, Opened(s.next));
      } else if event.WriteMarker? {
        HandlesFill(s, e, if event.ok then Marker(e) else Torn, PhaseOf(t, e));
      } else {
        HandlesMove(s, e, PhaseOf(t, e));
      }
    }
  }

  lemma {:induction false} HandlesAlways(s: State, events: seq<Event>)
    requires HandlesOwn(s)
    ensures HandlesOwn(Run(s, events))
    decreases |events|
  {
    hide HandlesOwn, Step;
    if events == [] {
    } else {
      HandlesAlways(s, events[..|events| - 1]);
      HandlesStep(Run(s, events[..|events| - 1]), events[|events| - 1]);
    }
  }

  /** In any run, with deletions, no exporter changes the contents of a file unless it is the unfinished
      reservation that this exporter created; nor does it ever lose a file: only the entry can move. */
  lemma ContentsRespected(s: State, events: seq<Event>, event: Event, i: Inode)
    requires HandlesOwn(s) && i in Run(s, events).files && !event.Rewrite?
    ensures var before, after := Run(s, events), Step(Run(s, events), event);
            && i in after.files
            && (after.files[i] != before.files[i] ==>
                  && event.WriteMarker? && PhaseOf(before, event.e) == Opened(i)
                  && before.files[i] in {Empty, Torn, Marker(event.e)} && after.files[i] in {Torn, Marker(event.e)})
  {
    HandlesAlways(s, events);
    hide Run;
  }

  /** This step creates file `i` as the exporter's reservation, at a free destination. */
  predicate Reserves(s: State, event: Event, e: Exporter, i: Inode) {
    event == OpenExclusive(e, true) && s.entry.None? && s.next == i && PhaseOf(s, e) == Absent
  }

  /** On this step the exporter, clearing up after reservation `i`, reads its own marker at the destination. */
  predicate ReadsOwn(s: State, event: Event, e: Exporter, i: Inode) {
    && event == ReadBack(e, true) && PhaseOf(s, e) == Cleanup(i)
    && s.entry.Some? && s.entry.value in s.files && s.files[s.entry.value] == Marker(e)
  }

  lemma HoldStep(s: State, event: Event, e: Exporter)
    ensures var p := PhaseOf(Step(s, event), e);
            && (Holds(p) ==> (Holds(PhaseOf(s, e)) && PhaseOf(s, e).inode == p.inode) || Reserves(s, event, e, p.inode))
            && (p.Removing? ==> PhaseOf(s, e) == p || ReadsOwn(s, event, e, p.inode))
  {}

  /** Whoever holds a reservation made it in the run. */
  lemma {:induction false} HolderReserved(s: State, events: seq<Event>, e: Exporter) returns (made: nat)
    requires !Holds(PhaseOf(s, e)) && Holds(PhaseOf(Run(s, events), e))
    ensures made < |events| && Reserves(Run(s, events[..made]), events[made], e, PhaseOf(Run(s, events), e).inode)
    decreases |events|
  {
    hide Step;
    var n := |events| - 1;
    HoldStep(Run(s, events[..n]), events[n], e);
    if Holds(PhaseOf(Run(s, events[..n]), e))
        && PhaseOf(Run(s, events[..n]), e).inode == PhaseOf(Run(s, events), e).inode {
      made := HolderReserved(s, events[..n], e);
      assert events[..n][..made] == events[..made];
    } else {
      made := n;
    }
  }

  /** Whoever is about to remove the entry has read its own marker there in the run. */
  lemma {:induction false} RemoverRead(s: State, events: seq<Event>, e: Exporter) returns (read: nat)
    requires !Holds(PhaseOf(s, e)) && PhaseOf(Run(s, events), e).Removing?
    ensures read < |events| && ReadsOwn(Run(s, events[..read]), events[read], e, PhaseOf(Run(s, events), e).inode)
    decreases |events|
  {
    hide Step;
    var n := |events| - 1;
    HoldStep(Run(s, events[..n]), events[n], e);
    if PhaseOf(Run(s, events[..n]), e) == PhaseOf(Run(s, events), e) {
      read := RemoverRead(s, events[..n], e);
      assert events[..n][..read] == events[..read];
    } else {
      read := n;
    }
  }

  lemma TakenBy(s: State, event: Event)
    requires s.entry.Some? && Step(s, event).entry != s.entry
    ensures event.Delete? || (event.Rename? && PhaseOf(s, event.e).Reserved?)
            || (event.Remove? && PhaseOf(s, event.e).Removing?)
  {}

  /** In any run, with deletions, from a state where nobody holds a reservation, an existing entry is taken
      from the file it names only by a deleter, or by an exporter that reserved the free destination earlier
      in the run: with its rename, or with the removal of a clean-up that then read its own marker there. */
  lemma EntryTaken(s: State, events: seq<Event>, event: Event) returns (made: nat, read: nat)
    requires forall e :: e in s.exporters ==> !Holds(s.exporters[e])
    requires Run(s, events).entry.Some? && Step(Run(s, events), event).entry != Run(s, events).entry
    ensures event.Delete? || event.Rename? || event.Remove?
    ensures !event.Delete? ==>
              var own := PhaseOf(Run(s, events), event.e);
              && Holds(own) && made < |events| && Reserves(Run(s, events[..made]), events[made], event.e, own.inode)
              && (event.Remove? ==>
                    && made < read < |events|
                    && ReadsOwn(Run(s, events[..read]), events[read], event.e, own.inode))
  {
    hide Run, Step, Reserves;
    TakenBy(Run(s, events), event);
    made, read := 0, 0;
    if event.Rename? {
      made := HolderReserved(s, events, event.e);
    } else if event.Remove? {
      read := RemoverRead(s, events, event.e);
      made := HolderReserved(s, events[..read], event.e);
      assert events[..read][..made] == events[..made];
    }
  }

  // One success.

  lemma PublishedStays(s: State, event: Event, e: Exporter)
    requires Inv(s) && !Deletes(event) && Kept(s, e)
    ensures Kept(Step(s, event), e)
  {
    forall x | x in s.exporters ensures !Holds(s.exporters[x]) {
      HolderIsNoArchive(s, x);
    }
  }

  lemma {:induction false} KeptAlways(s: State, events: seq<Event>, e: Exporter)
    requires Inv(s) && Kept(s, e) && forall i :: 0 <= i < |events| ==> !Deletes(events[i])
    ensures Kept(Run(s, events), e)
    decreases |events|
  {
    hide Inv, Step, Kept;
    if events == [] {
    } else {
      KeptAlways(s, events[..|events| - 1], e);
      InvAlways(s, events[..|events| - 1]);
      PublishedStays(Run(s, events[..|events| - 1]), events[|events| - 1], e);
    }
  }

  /** The exporter reports success on this step. */
  predicate Succeeds(s: State, event: Event, e: Exporter) {
    PhaseOf(s, e) != Published && PhaseOf(Step(s, event), e) == Published
  }

  lemma SuccessKeeps(s: State, event: Event, e: Exporter)
    requires Succeeds(s, event, e)
    ensures Kept(Step(s, event), e)
    ensures Inv(s) ==> s.entry.None? || OwnReservation(s, e, s.entry.value)
  {}

  /** While nobody deletes the destination, at most one exporter ever reports success, and from then
      on the destination is that exporter's complete archive. */
  lemma OneSuccess(s: State, first: Event, events: seq<Event>, second: Event, e: Exporter, f: Exporter)
    requires Inv(s) && Succeeds(s, first, e) && !Deletes(first)
    requires forall i :: 0 <= i < |events| ==> !Deletes(events[i])
    ensures Kept(Run(Step(s, first), events), e)
    ensures !Succeeds(Run(Step(s, first), events), second, f)
  {
    var t := Step(s, first);
    var later := Run(t, events);
    SuccessKeeps(s, first, e);
    StepKeeps(s, first);
    KeptAlways(t, events, e);
    InvAlways(t, events);
    hide Step, Run, Inv;
    if Succeeds(later, second, f) {
      SuccessKeeps(later, second, f);
    }
  }

  // What the fallback cannot promise.

  function FreeDestination(): State {
    State(None, map[], 0, map[])
  }

  lemma FreeIsGood()
    ensures Inv(FreeDestination()) && HandlesOwn(FreeDestination())
  {}

  /** If somebody deletes the reservation and another writer claims the path before the rename, the
      rename replaces that writer's file. */
  lemma DeletedReservationIsOverwritten(s: State, e: Exporter, bytes: string)
    requires PhaseOf(s, e).Reserved?
    ensures var claimed := Step(Step(s, Delete), Create(bytes));
            && claimed.entry.Some? && claimed.files[claimed.entry.value] == Data(bytes)
            && Kept(Step(claimed, Rename(e, true)), e)
  {}

  lemma RunOne(s: State, events: seq<Event>, event: Event)
    ensures Run(s, events + [event]) == Step(Run(s, events), event)
  {
    assert (events + [event])[..|events|] == events;
  }

  /** From an absent destination an undisturbed exporter gets its reservation. */
  lemma Reserving(t: State, e: Exporter)
    requires InPhase(t, e, Absent) && t.entry == None
    ensures var written := Step(Step(t, OpenExclusive(e, true)), WriteMarker(e, true));
            PhaseOf(Step(written, SyncAndClose(e, true)), e).Reserved?
  {}

  lemma RunThree(s: State, events: seq<Event>, a: Event, b: Event, c: Event)
    ensures Run(s, events + [a] + [b] + [c]) == Step(Step(Step(Run(s, events), a), b), c)
  {
    hide Step;
    RunOne(s, events, a);
    RunOne(s, events + [a], b);
    RunOne(s, events + [a] + [b], c);
  }

  lemma RunNone(s: State)
    ensures Run(s, []) == s
  {}

  /** Such a state is reached by an exporter on a file system without hard links. */
  lemma ReservationHappens(e: Exporter) returns (events: seq<Event>)
    ensures Inv(Run(FreeDestination(), events)) && PhaseOf(Run(FreeDestination(), events), e).Reserved?
  {
    var s := FreeDestination();
    var refused := [] + [Start(e)] + [Link(e, false)] + [Inspect(e, true)];
    RunThree(s, [], Start(e), Link(e, false), Inspect(e, true));
    RunNone(s);
    NoLinks(s, e);
    RunThree(s, refused, OpenExclusive(e, true), WriteMarker(e, true), SyncAndClose(e, true));
    events := refused + [OpenExclusive(e, true)] + [WriteMarker(e, true)] + [SyncAndClose(e, true)];
    hide Step, Run, Inv;
    Reserving(Run(s, refused), e);
    FreeIsGood();
    InvAlways(s, events);
  }

  lemma NoLinks(s: State, e: Exporter)
    requires s == FreeDestination()
    ensures var t := Step(Step(Step(s, Start(e)), Link(e, false)), Inspect(e, true));
            InPhase(t, e, Absent) && t.entry == None
  {}

  /** Hard links do not exclude it either: on a file system where every link call works, an exporter that
      finds the destination taken, and then deleted before it looks, goes on to the fallback. */
  lemma LinksDoNotSuffice(e: Exporter, earlier: string, bytes: string) returns (events: seq<Event>)
    ensures forall i :: 0 <= i < |events| && events[i].Link? ==> events[i].ok
    ensures var s := Run(FreeDestination(), events);
            && s.entry.Some? && s.entry.value in s.files && s.files[s.entry.value] == Data(bytes)
            && Kept(Step(s, Rename(e, true)), e)
  {
    var s := FreeDestination();
    var missed := TakenThenDeleted(e, earlier);
    RunThree(s, missed, OpenExclusive(e, true), WriteMarker(e, true), SyncAndClose(e, true));
    events := missed + [OpenExclusive(e, true)] + [WriteMarker(e, true)] + [SyncAndClose(e, true)];
    RunOne(s, events, Delete);
    RunOne(s, events + [Delete], Create(bytes));
    hide Step, Run;
    Reserving(Run(s, missed), e);
    DeletedReservationIsOverwritten(Run(s, events), e, bytes);
    events := events + [Delete] + [Create(bytes)];
  }

  lemma TakenThenDeleted(e: Exporter, earlier: string) returns (events: seq<Event>)
    ensures forall i :: 0 <= i < |events| && events[i].Link? ==> events[i].ok
    ensures InPhase(Run(FreeDestination(), events), e, Absent) && Run(FreeDestination(), events).entry == None
  {
    var s := FreeDestination();
    var taken := [] + [Create(earlier)] + [Start(e)] + [Link(e, true)];
    RunThree(s, [], Create(earlier), Start(e), Link(e, true));
    RunNone(s);
    RunOne(s, taken, Delete);
    RunOne(s, taken + [Delete], Inspect(e, true));
    events := taken + [Delete] + [Inspect(e, true)];
    hide Step, Run;
    Contended(s, e, earlier);
  }

  lemma Contended(s: State, e: Exporter, earlier: string)
    requires s == FreeDestination()
    ensures var refused := Step(Step(Step(s, Create(earlier)), Start(e)), Link(e, true));
            var t := Step(Step(refused, Delete), Inspect(e, true));
            InPhase(t, e, Absent) && t.entry == None
  {}

  // What an undisturbed exporter achieves.

  /** With the destination free and every call it makes succeeding, an exporter publishes its archive:
      by a hard link, where the file system has none by a move that does not replace, and where that is
      not to be had either by renaming over its own reservation. */
  lemma UndisturbedPublishes(s: State, e: Exporter)
    requires s.entry.None? && e !in s.exporters
    ensures var linked := Run(s, [] + [Start(e)] + [Link(e, true)]);
            PhaseOf(linked, e) == Published && Kept(linked, e)
    ensures var moved := Run(s, [] + [Start(e)] + [Link(e, false)] + [Inspect(e, true)] + [MoveNoReplace(e, true)]);
            PhaseOf(moved, e) == Published && Kept(moved, e)
    ensures var renamed := Run(s, ReservingEvents(e) + [Rename(e, true)]);
            PhaseOf(renamed, e) == Published && Kept(renamed, e)
  {
    RunNone(s);
    RunOne(s, [], Start(e));
    RunOne(s, [] + [Start(e)], Link(e, true));
    RunThree(s, [], Start(e), Link(e, false), Inspect(e, true));
    RunOne(s, [] + [Start(e)] + [Link(e, false)] + [Inspect(e, true)], MoveNoReplace(e, true));
    RunOne(s, ReservingEvents(e), Rename(e, true));
    ReservesWhenFree(s, e);
    hide Run;
  }

  /** The calls of an exporter up to its reservation, none of them failing but the hard link. */
  function ReservingEvents(e: Exporter): seq<Event> {
    [] + [Start(e)] + [Link(e, false)] + [Inspect(e, true)]
    + [OpenExclusive(e, true)] + [WriteMarker(e, true)] + [SyncAndClose(e, true)]
  }

  lemma ReservesWhenFree(s: State, e: Exporter)
    requires s.entry.None? && e !in s.exporters
    ensures var t := Run(s, ReservingEvents(e));
            && PhaseOf(t, e).Reserved? && OwnReservation(t, e, PhaseOf(t, e).inode)
            && t.files[PhaseOf(t, e).inode] == Marker(e)
  {
    RunNone(s);
    RunThree(s, [], Start(e), Link(e, false), Inspect(e, true));
    RunThree(s, [] + [Start(e)] + [Link(e, false)] + [Inspect(e, true)],
             OpenExclusive(e, true), WriteMarker(e, true), SyncAndClose(e, true));
    hide Run;
  }

  /** An undisturbed exporter whose rename fails clears up after itself: the destination is free again. */
  lemma FailedRenameClearsUp(s: State, e: Exporter)
    requires s.entry.None? && e !in s.exporters
    ensures var t := Run(s, ReservingEvents(e) + [Rename(e, false)] + [ReadBack(e, true)] + [Remove(e, true)]);
            t.entry.None? && PhaseOf(t, e) == Failed
  {
    ReservesWhenFree(s, e);
    RunThree(s, ReservingEvents(e), Rename(e, false), ReadBack(e, true), Remove(e, true));
    hide Run;
  }
}
