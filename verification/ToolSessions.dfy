/** Tool sessions: which calls run, once each, and which answers resume them, however the critical sections of
    concurrent calls interleave. */
module ToolSessions {
  import opened Basics
  import opened ContextMessages

  datatype Outcome<+T> = Ok(value: T) | Refused(reason: string)

  const MAX_ID := 512
  const MAX_CONTENT := 8192

  // ----- Answers -----

  datatype Choosing = Single | Multiple | OtherMode(text: string)

  datatype Status = Answered | Cancelled | Unavailable | OtherStatus(text: string)

  datatype Question = Question(id: string, choosing: Choosing, options: seq<string>, allowCustom: bool)

  datatype Answer = Answer(questionId: string, status: Status, optionIds: seq<string>, custom: string)

  ghost predicate Distinct(s: seq<string>) { forall i, j :: 0 <= i < j < |s| ==> s[i] != s[j] }

  /** The answers that may settle a question. */
  ghost predicate AnswerOk(q: Question, a: Answer) {
    && q.id == a.questionId && ByteLength(a.custom) <= MAX_CONTENT
    && match a.status
       case Cancelled => a.optionIds == [] && a.custom == ""
       case Unavailable => a.optionIds == [] && a.custom == ""
       case OtherStatus(_) => false
       case Answered =>
         && Distinct(a.optionIds) && (forall o :: o in a.optionIds ==> o in q.options)
         && (TrimSpace(a.custom) != "" ==> q.allowCustom)
         && match q.choosing
            case Single => |a.optionIds| == if TrimSpace(a.custom) != "" then 0 else 1
            case Multiple => a.optionIds != [] || TrimSpace(a.custom) != ""
            case OtherMode(_) => false
  }

  /** `validateAnswer`. */
  method ValidateAnswer(q: Question, a: Answer) returns (ok: bool)
    ensures ok <==> AnswerOk(q, a)
  {
    hide ByteLength, TrimSpace;
    if q.id != a.questionId || ByteLength(a.custom) > MAX_CONTENT { return false; }
    if a.status == Cancelled || a.status == Unavailable { return a.optionIds == [] && a.custom == ""; }
    if a.status != Answered { return false; }
    var allowed: set<string> := set o | o in q.options;
    for k := 0 to |a.optionIds|
      invariant Distinct(a.optionIds[..k]) && (forall o :: o in a.optionIds[..k] ==> o in q.options)
      invariant forall o :: o in allowed <==> o in q.options && o !in a.optionIds[..k]
    {
      assert a.optionIds[..k + 1] == a.optionIds[..k] + [a.optionIds[k]];
      if a.optionIds[k] !in allowed {
        if a.optionIds[k] in a.optionIds[..k] {
          var j :| 0 <= j < k && a.optionIds[..k][j] == a.optionIds[k];
        }
        return false;
      }
      allowed := allowed - {a.optionIds[k]};
    }
    assert a.optionIds[..|a.optionIds|] == a.optionIds;
    var custom := TrimSpace(a.custom) != "";
    if custom && !q.allowCustom { return false; }
    if q.choosing == Single { return if custom then |a.optionIds| == 0 else |a.optionIds| == 1; }
    ok := q.choosing == Multiple && (|a.optionIds| > 0 || custom);
  }

  /** A single-choice question takes one offered option and no text, or a text of its own and no option; a
      multiple-choice question any different offered options, with or without such a text, but not nothing; and a text
      of its own only where it is allowed. Giving up carries nothing. */
  lemma AnswersMean(q: Question, a: Answer)
    requires q.id == a.questionId && ByteLength(a.custom) <= 8 * 1024
    ensures a.status == Answered && q.choosing == Single ==>
              (AnswerOk(q, a) <==>
                 || (|a.optionIds| == 1 && a.optionIds[0] in q.options && TrimSpace(a.custom) == "")
                 || (|a.optionIds| == 0 && TrimSpace(a.custom) != "" && q.allowCustom))
    ensures a.status == Answered && q.choosing == Multiple ==>
              (AnswerOk(q, a) <==>
                 && (forall i :: 0 <= i < |a.optionIds| ==> a.optionIds[i] in q.options)
                 && (forall i, j :: 0 <= i < j < |a.optionIds| ==> a.optionIds[i] != a.optionIds[j])
                 && (TrimSpace(a.custom) == "" || q.allowCustom) && (|a.optionIds| > 0 || TrimSpace(a.custom) != ""))
    ensures a.status == Cancelled || a.status == Unavailable ==> (AnswerOk(q, a) <==> a.optionIds == [] && a.custom == "")
    ensures a.status.OtherStatus? || (a.status == Answered && q.choosing.OtherMode?) ==> !AnswerOk(q, a)
  {
    hide TrimSpace, ByteLength;
    if |a.optionIds| == 1 { assert forall o :: o in a.optionIds <==> o == a.optionIds[0]; }
  }

  /** An answer to another question, or with a longer text, settles nothing. */
  lemma AnswersElsewhere(q: Question, a: Answer)
    requires q.id != a.questionId || ByteLength(a.custom) > 8 * 1024
    ensures !AnswerOk(q, a)
  {
    hide TrimSpace, ByteLength;
  }

  // ----- The shared state -----

  ghost predicate ReservableIds(ids: seq<string>) {
    Distinct(ids) && forall id :: id in ids ==> id != "" && ByteLength(id) <= MAX_ID
  }

  /** What each critical section asks of the shared state. */
  ghost predicate Reservable(seen: set<string>, ids: seq<string>) { seen == {} && ReservableIds(ids) }

  ghost predicate Answerable(pending: map<string, Question>, id: string, answer: Answer) {
    id in pending && AnswerOk(pending[id], answer)
  }

  // The critical sections, as functions of the shared fields and of what they return.

  ghost function Reserved(seen: set<string>, ids: seq<string>): (set<string>, bool) {
    if Reservable(seen, ids) then (set id | id in ids, true) else (seen, false)
  }

  function Claimed(seen: set<string>, id: string): (set<string>, bool) { (seen + {id}, id !in seen) }

  function Parked(pending: map<string, Question>, id: string, question: Question): map<string, Question> { pending[id := question] }

  ghost function TakenOut(pending: map<string, Question>, id: string, answer: Answer): (map<string, Question>, Option<Question>) {
    if Answerable(pending, id, answer) then (pending - {id}, Some(pending[id])) else (pending, None)
  }

  /** The fields of a tool set that its mutex protects, and the critical sections of its methods. */
  class ToolSet {
    var seen: set<string>
    var pending: map<string, Question>

    constructor ()
      ensures seen == {} && pending == map[]
    {
      seen, pending := {}, map[];
    }

    /** `ReserveCallIDs`: all or nothing, and only before any call has run. */
    method ReserveCallIds(ids: seq<string>) returns (ok: bool)
      modifies `seen
      ensures (seen, ok) == Reserved(old(seen), ids)
    {
      hide ByteLength;
      if |seen| != 0 { return false; }
      var reserved: set<string> := {};
      for k := 0 to |ids|
        invariant ReservableIds(ids[..k]) && reserved == set id | id in ids[..k]
      {
        assert ids[..k + 1] == ids[..k] + [ids[k]];
        if ids[k] == "" || ByteLength(ids[k]) > MAX_ID { return false; }
        if ids[k] in reserved {
          var j :| 0 <= j < k && ids[..k][j] == ids[k];
          return false;
        }
        reserved := reserved + {ids[k]};
      }
      assert ids[..|ids|] == ids;
      seen := reserved;
      ok := true;
    }

    /** The first critical section of `Invoke`. */
    method Claim(id: string) returns (ok: bool)
      modifies `seen
      ensures (seen, ok) == Claimed(old(seen), id)
    {
      assert id in seen ==> seen + {id} == seen;
      if id in seen { return false; }
      seen := seen + {id};
      ok := true;
    }

    /** The second critical section of `Invoke`: the call waits for an answer. */
    method Park(id: string, question: Question)
      modifies `pending
      ensures pending == Parked(old(pending), id, question)
    {
      pending := pending[id := question];
    }

    /** The critical section of `Resolve`: a valid answer takes the question away, any other leaves it. */
    method Take(id: string, answer: Answer) returns (r: Outcome<Question>)
      modifies `pending
      ensures (pending, if r.Ok? then Some(r.value) else None) == TakenOut(old(pending), id, answer)
    {
      if id !in pending { return Refused("interaction_not_pending"); }
      var question := pending[id];
      var ok := ValidateAnswer(question, answer);
      if !ok { return Refused("invalid answer"); }
      pending := pending - {id};
      r := Ok(question);
    }
  }

  // ----- Interleavings -----

  /** Where a thread of `Invoke` or `Resolve` stands between two critical sections. */
  datatype Stage =
    | Claiming(id: string) | Starting(id: string) | Running(id: string) | Parking(id: string, question: Question)
    | Answering(id: string, answer: Answer) | Resuming(id: string)
    | Finished

  datatype Event = Executed(id: string) | Resumed(id: string) | Taken(id: string) | Rejected(id: string)

  /** Who is responsible for a claimed call; a history variable. */
  datatype Place = ToStart(thread: nat) | Started(thread: nat) | Waiting | ToResume(thread: nat) | Over(resumed: bool)

  datatype World = World(seen: set<string>, pending: map<string, Question>, threads: map<nat, Stage>, trace: seq<Event>,
                         places: map<string, Place>)

  datatype Action =
    | Reserve(ids: seq<string>)
    | BeginInvoke(thread: nat, id: string)
    | Claim(thread: nat)
    | Start(thread: nat)
    | Return(thread: nat, question: Option<Question>)
    | Park(thread: nat)
    | BeginResolve(thread: nat, id: string, answer: Answer)
    | Take(thread: nat)
    | Resume(thread: nat)

  const INITIAL := World({}, map[], map[], [], map[])

  /** The actions a world allows. New threads have new numbers; the rest is at the head of its own stage. */
  predicate Enabled(w: World, a: Action) {
    match a
    case Reserve(_) => true
    case BeginInvoke(t, _) => t !in w.threads
    case BeginResolve(t, _, _) => t !in w.threads
    case Claim(t) => t in w.threads && w.threads[t].Claiming?
    case Start(t) => t in w.threads && w.threads[t].Starting?
    case Return(t, _) => t in w.threads && w.threads[t].Running?
    case Park(t) => t in w.threads && w.threads[t].Parking?
    case Take(t) => t in w.threads && w.threads[t].Answering?
    case Resume(t) => t in w.threads && w.threads[t].Resuming?
  }

  function Moved(w: World, thread: nat, stage: Stage): World { w.(threads := w.threads[thread := stage]) }

  /** One step of some thread. The parts that touch the shared fields are the critical sections above. */
  ghost function Step(w: World, a: Action): World
    requires Enabled(w, a)
  {
    match a
    case Reserve(ids) => w.(seen := Reserved(w.seen, ids).0)
    case BeginInvoke(t, id) => Moved(w, t, Claiming(id))
    case BeginResolve(t, id, answer) => Moved(w, t, Answering(id, answer))
    case Claim(t) =>
      var id := w.threads[t].id;
      var claimed := Claimed(w.seen, id);
      if !claimed.1 then Moved(w, t, Finished).(seen := claimed.0)
      else Moved(w, t, Starting(id)).(seen := claimed.0, places := w.places[id := ToStart(t)])
    case Start(t) =>
      var id := w.threads[t].id;
      Moved(w, t, Running(id)).(trace := w.trace + [Executed(id)], places := w.places[id := Started(t)])
    case Return(t, question) =>
      var id := w.threads[t].id;
      (match question
       case None => Moved(w, t, Finished).(places := w.places[id := Over(false)])
       case Some(q) => Moved(w, t, Parking(id, q)))
    case Park(t) =>
      var id := w.threads[t].id;
      Moved(w, t, Finished).(pending := Parked(w.pending, id, w.threads[t].question), places := w.places[id := Waiting])
    case Take(t) =>
      var id, answer := w.threads[t].id, w.threads[t].answer;
      var taken := TakenOut(w.pending, id, answer);
      if taken.1.None? then Moved(w, t, Finished).(pending := taken.0, trace := w.trace + [Rejected(id)])
      else if answer.status.Answered? then
        Moved(w, t, Resuming(id)).(pending := taken.0, trace := w.trace + [Taken(id)], places := w.places[id := ToResume(t)])
      else
        Moved(w, t, Finished).(pending := taken.0, trace := w.trace + [Taken(id)], places := w.places[id := Over(false)])
    case Resume(t) =>
      var id := w.threads[t].id;
      Moved(w, t, Finished).(trace := w.trace + [Resumed(id)], places := w.places[id := Over(true)])
  }

  /** The world after the first `n` actions of a run. */
  ghost predicate Runs(actions: seq<Action>, worlds: seq<World>) {
    && |worlds| == |actions| + 1 && worlds[0] == INITIAL
    && forall k :: 0 <= k < |actions| ==> Enabled(worlds[k], actions[k]) && worlds[k + 1] == Step(worlds[k], actions[k])
  }

  function Times(trace: seq<Event>, e: Event): nat {
    if |trace| == 0 then 0 else Times(trace[..|trace| - 1], e) + (if trace[|trace| - 1] == e then 1 else 0)
  }

  lemma TimesNext(trace: seq<Event>, last: Event, e: Event)
    ensures Times(trace + [last], e) == Times(trace, e) + (if last == e then 1 else 0)
  {
    assert (trace + [last])[..|trace|] == trace;
  }

  // ----- The invariant -----

  /** A thread holds the call it is busy with. */
  ghost predicate ThreadOk(w: World, t: nat)
    requires t in w.threads
  {
    match w.threads[t]
    case Starting(id) => id in w.places && w.places[id] == ToStart(t)
    case Running(id) => id in w.places && w.places[id] == Started(t)
    case Parking(id, _) => id in w.places && w.places[id] == Started(t)
    case Resuming(id) => id in w.places && w.places[id] == ToResume(t)
    case _ => true
  }

  function Executions(w: World, id: string): nat { if id in w.places && !w.places[id].ToStart? then 1 else 0 }

  function Resumptions(w: World, id: string): nat { if id in w.places && w.places[id] == Over(true) then 1 else 0 }

  ghost predicate CallOk(w: World, id: string) {
    && (id in w.places ==> id in w.seen)
    && (id in w.pending <==> id in w.places && w.places[id] == Waiting)
    && Times(w.trace, Executed(id)) == Executions(w, id) && Times(w.trace, Resumed(id)) == Resumptions(w, id)
  }

  ghost predicate WorldOk(w: World) { (forall t :: t in w.threads ==> ThreadOk(w, t)) && forall id :: CallOk(w, id) }

  /** The call a step is about. */
  function CallOf(w: World, a: Action): string
    requires Enabled(w, a)
  {
    match a
    case Reserve(_) => ""
    case BeginInvoke(_, id) => id
    case BeginResolve(_, id, _) => id
    case Claim(t) => w.threads[t].id
    case Start(t) => w.threads[t].id
    case Return(t, _) => w.threads[t].id
    case Park(t) => w.threads[t].id
    case Take(t) => w.threads[t].id
    case Resume(t) => w.threads[t].id
  }

  /** A step leaves every other call, and every other thread, as it was. */
  lemma OthersKept(w: World, a: Action, id: string)
    requires Enabled(w, a) && id != CallOf(w, a)
    ensures var v := Step(w, a);
            && (id in v.places <==> id in w.places) && (id in w.places ==> v.places[id] == w.places[id])
            && (id in v.pending <==> id in w.pending)
            && Times(v.trace, Executed(id)) == Times(w.trace, Executed(id)) && Times(v.trace, Resumed(id)) == Times(w.trace, Resumed(id))
  {
    hide AnswerOk, ReservableIds, Times;
    var c := CallOf(w, a);
    forall e: Event, last | (e == Executed(id) || e == Resumed(id)) && last in {Executed(c), Resumed(c), Taken(c), Rejected(c)}
      ensures Times(w.trace + [last], e) == Times(w.trace, e)
    {
      TimesNext(w.trace, last, e);
    }
  }

  lemma SeenGrows(w: World, a: Action)
    requires Enabled(w, a)
    ensures w.seen <= Step(w, a).seen
  {
    hide AnswerOk, ReservableIds;
  }

  /** The call of a step stays in order. */
  lemma CallKept(w: World, a: Action)
    requires WorldOk(w) && Enabled(w, a)
    ensures CallOk(Step(w, a), CallOf(w, a))
  {
    hide AnswerOk, ReservableIds, Times;
    var id := CallOf(w, a);
    assert CallOk(w, id);
    match a
    case Reserve(_) => if w.seen == {} { NoPlaces(w); }
    case Start(t) => assert ThreadOk(w, t); TimesNext(w.trace, Executed(id), Executed(id)); TimesNext(w.trace, Executed(id), Resumed(id));
    case Return(t, _) => assert ThreadOk(w, t);
    case Park(t) => assert ThreadOk(w, t);
    case Take(t) =>
      TimesNext(w.trace, Taken(id), Executed(id));
      TimesNext(w.trace, Taken(id), Resumed(id));
      TimesNext(w.trace, Rejected(id), Executed(id));
      TimesNext(w.trace, Rejected(id), Resumed(id));
    case Resume(t) => assert ThreadOk(w, t); TimesNext(w.trace, Resumed(id), Executed(id)); TimesNext(w.trace, Resumed(id), Resumed(id));
    case _ =>
  }

  lemma NoPlaces(w: World)
    requires WorldOk(w) && w.seen == {}
    ensures w.places == map[]
  {
    forall id ensures id !in w.places { assert CallOk(w, id); }
  }

  /** Threads keep hold of their calls: no other thread can have moved the same call. */
  lemma ThreadsKept(w: World, a: Action, t: nat)
    requires WorldOk(w) && Enabled(w, a) && t in Step(w, a).threads
    ensures ThreadOk(Step(w, a), t)
  {
    hide AnswerOk, ReservableIds, Times;
    var id := CallOf(w, a);
    assert CallOk(w, id);
    if t in w.threads { assert ThreadOk(w, t); }
    match a
    case Claim(u) => assert ThreadOk(w, u);
    case Start(u) => assert ThreadOk(w, u);
    case Return(u, _) => assert ThreadOk(w, u);
    case Park(u) => assert ThreadOk(w, u);
    case Take(u) => assert ThreadOk(w, u);
    case Resume(u) => assert ThreadOk(w, u);
    case _ =>
  }

  /** Every step of every interleaving keeps the invariant. */
  lemma StepKeeps(w: World, a: Action)
    requires WorldOk(w) && Enabled(w, a)
    ensures WorldOk(Step(w, a))
  {
    hide AnswerOk, ReservableIds, Times, Step, Enabled, ThreadOk;
    var v := Step(w, a);
    SeenGrows(w, a);
    CallKept(w, a);
    forall id ensures CallOk(v, id) {
      assert CallOk(w, id);
      if id != CallOf(w, a) { OthersKept(w, a, id); }
    }
    forall t | t in v.threads ensures ThreadOk(v, t) { ThreadsKept(w, a, t); }
  }

  // ----- Whole runs -----

  lemma {:induction false} ReachableOk(actions: seq<Action>, worlds: seq<World>, k: nat)
    requires Runs(actions, worlds) && k <= |actions|
    ensures WorldOk(worlds[k])
  {
    hide Step, Enabled, ThreadOk, CallOk;
    if k == 0 {
      InitialOk();
    } else {
      ReachableOk(actions, worlds, k - 1);
      StepKeeps(worlds[k - 1], actions[k - 1]);
    }
  }

  lemma InitialOk()
    ensures WorldOk(INITIAL)
  {
  }

  /** In every interleaving each call is executed at most once and resumed at most once, whatever waits has been
      claimed, and nothing waits while it is being resumed. */
  lemma OnceInEveryInterleaving(actions: seq<Action>, worlds: seq<World>, k: nat, id: string)
    requires Runs(actions, worlds) && k <= |actions|
    ensures Times(worlds[k].trace, Executed(id)) <= 1 && Times(worlds[k].trace, Resumed(id)) <= Times(worlds[k].trace, Executed(id))
    ensures id in worlds[k].pending ==> id in worlds[k].seen && Times(worlds[k].trace, Resumed(id)) == 0
    ensures forall t :: t in worlds[k].threads && worlds[k].threads[t] == Resuming(id) ==> id !in worlds[k].pending
  {
    hide Times;
    ReachableOk(actions, worlds, k);
    var w := worlds[k];
    assert CallOk(w, id);
    forall t | t in w.threads && w.threads[t] == Resuming(id) ensures id !in w.pending { assert ThreadOk(w, t); }
  }

  /** A seen call that no thread claimed: a reserved one. */
  ghost predicate Barred(w: World, id: string) { id in w.seen && id !in w.places }

  lemma BarredStays(w: World, a: Action, id: string)
    requires WorldOk(w) && Enabled(w, a) && Barred(w, id)
    ensures Barred(Step(w, a), id)
  {
    SeenGrows(w, a);
    if id != CallOf(w, a) {
      OthersKept(w, a, id);
    } else {
      BarredCall(w, a);
    }
  }

  /** A thread in the middle of a call has a place for it. */
  lemma BusyHasPlace(w: World, t: nat)
    requires WorldOk(w) && t in w.threads
    ensures var s := w.threads[t]; s.Starting? || s.Running? || s.Parking? || s.Resuming? ==> s.id in w.places
  {
    assert ThreadOk(w, t);
  }

  lemma BarredCall(w: World, a: Action)
    requires WorldOk(w) && Enabled(w, a) && Barred(w, CallOf(w, a))
    ensures CallOf(w, a) !in Step(w, a).places
  {
    hide AnswerOk, ReservableIds, Times, WorldOk;
    WaitingHasPlace(w, CallOf(w, a));
    if a.Start? || a.Return? || a.Park? || a.Resume? { BusyHasPlace(w, a.thread); }
  }

  lemma WaitingHasPlace(w: World, id: string)
    requires WorldOk(w)
    ensures id in w.pending ==> id in w.places
  {
    assert CallOk(w, id);
  }

  lemma ReservationBars(w: World, ids: seq<string>, id: string)
    requires WorldOk(w) && Reservable(w.seen, ids) && id in ids
    ensures Barred(Step(w, Reserve(ids)), id)
  {
    NoPlaces(w);
  }

  lemma {:induction false} BarredForEver(actions: seq<Action>, worlds: seq<World>, i: nat, k: nat, id: string)
    requires Runs(actions, worlds) && i <= k <= |actions| && Barred(worlds[i], id)
    ensures Barred(worlds[k], id)
    decreases k - i
  {
    hide Step, Enabled, Barred;
    if i < k {
      BarredForEver(actions, worlds, i, k - 1, id);
      ReachableOk(actions, worlds, k - 1);
      BarredStays(worlds[k - 1], actions[k - 1], id);
    }
  }

  /** A reserved call is never executed, and never waits or resumes, in any continuation. */
  lemma ReservedNeverRuns(actions: seq<Action>, worlds: seq<World>, i: nat, k: nat, ids: seq<string>, id: string)
    requires Runs(actions, worlds) && i < k <= |actions| && actions[i] == Reserve(ids)
    requires Reservable(worlds[i].seen, ids) && id in ids
    ensures Times(worlds[k].trace, Executed(id)) == 0 && Times(worlds[k].trace, Resumed(id)) == 0 && id !in worlds[k].pending
  {
    hide Times, Step, Enabled;
    ReachableOk(actions, worlds, i);
    ReachableOk(actions, worlds, k);
    ReservationBars(worlds[i], ids, id);
    BarredForEver(actions, worlds, i + 1, k, id);
    assert CallOk(worlds[k], id);
  }

  /** Once a session has seen a call, no reservation changes anything. */
  lemma ReservationComesFirst(w: World, ids: seq<string>)
    requires w.seen != {}
    ensures Step(w, Reserve(ids)) == w
  {
  }

  /** An answer: a valid one takes the question out before anything resumes, any other leaves the session as it was. */
  lemma AnswerTakesOrLeaves(w: World, t: nat)
    requires WorldOk(w) && Enabled(w, Take(t))
    ensures var id, answer, v := w.threads[t].id, w.threads[t].answer, Step(w, Take(t));
            if Answerable(w.pending, id, answer)
            then id !in v.pending && v.seen == w.seen && (v.threads[t] == Resuming(id) <==> answer.status.Answered?)
                 && Times(v.trace, Resumed(id)) == 0
            else v.pending == w.pending && v.seen == w.seen && v.threads[t] == Finished
  {
    hide AnswerOk, Times;
    var id := w.threads[t].id;
    assert CallOk(w, id);
    TimesNext(w.trace, Taken(id), Resumed(id));
  }

  // ----- Waiting questions -----

  /** The action takes the question out with an answer that settles it. */
  ghost predicate Settles(w: World, a: Action, id: string, q: Question) {
    && a.Take? && Enabled(w, a) && w.threads[a.thread].id == id
    && id in w.pending && w.pending[id] == q && AnswerOk(q, w.threads[a.thread].answer)
  }

  /** Only an answer that settles a waiting question makes it stop waiting; nothing replaces it. */
  lemma WaitingStays(w: World, a: Action, id: string)
    requires WorldOk(w) && Enabled(w, a) && id in w.pending
    ensures var v := Step(w, a);
            if Settles(w, a, id, w.pending[id]) then id !in v.pending else id in v.pending && v.pending[id] == w.pending[id]
  {
    hide AnswerOk, ReservableIds, Times;
    assert CallOk(w, id);
    if a.Park? { assert ThreadOk(w, a.thread); }
  }

  lemma {:induction false} WaitsUntilSettled(actions: seq<Action>, worlds: seq<World>, i: nat, k: nat, id: string)
    requires Runs(actions, worlds) && i <= k <= |actions| && id in worlds[i].pending
    ensures var q := worlds[i].pending[id];
            || (id in worlds[k].pending && worlds[k].pending[id] == q)
            || exists j :: i <= j < k && Settles(worlds[j], actions[j], id, q)
    decreases k - i
  {
    hide Step, Enabled, Settles;
    if i < k {
      var q := worlds[i].pending[id];
      WaitsUntilSettled(actions, worlds, i, k - 1, id);
      if id in worlds[k - 1].pending && worlds[k - 1].pending[id] == q {
        ReachableOk(actions, worlds, k - 1);
        WaitingStays(worlds[k - 1], actions[k - 1], id);
      }
    }
  }

  /** In every interleaving, a question that a call parked waits, unchanged, until an answer that settles it takes it. */
  lemma ParkedWaitsForItsAnswer(actions: seq<Action>, worlds: seq<World>, i: nat, k: nat, t: nat)
    requires Runs(actions, worlds) && i < k <= |actions| && actions[i] == Park(t)
    ensures t in worlds[i].threads && worlds[i].threads[t].Parking?
    ensures var id, q := worlds[i].threads[t].id, worlds[i].threads[t].question;
            || (id in worlds[k].pending && worlds[k].pending[id] == q)
            || exists j :: i < j < k && Settles(worlds[j], actions[j], id, q)
  {
    hide Settles, Reserved, TakenOut;
    assert Enabled(worlds[i], actions[i]) && worlds[i + 1] == Step(worlds[i], actions[i]);
    var id, q := worlds[i].threads[t].id, worlds[i].threads[t].question;
    assert id in worlds[i + 1].pending && worlds[i + 1].pending[id] == q;
    WaitsUntilSettled(actions, worlds, i + 1, k, id);
  }

  // ----- Calls that nothing interrupts -----

  /** A call that was not seen before is claimed and executed; one that was changes nothing but its own thread. */
  lemma FreshCallExecutes(w: World, t: nat, id: string)
    requires t !in w.threads
    ensures var a := Step(w, BeginInvoke(t, id));
            && Enabled(a, Claim(t))
            && var b := Step(a, Claim(t));
               if id in w.seen then b == w.(threads := w.threads[t := Finished])
               else
                 && b.seen == w.seen + {id} && b.pending == w.pending && b.trace == w.trace && Enabled(b, Start(t))
                 && Step(b, Start(t)).trace == w.trace + [Executed(id)] && Step(b, Start(t)).threads[t] == Running(id)
  {
    hide AnswerOk, ReservableIds;
    if id in w.seen {
      assert w.seen + {id} == w.seen;
      assert w.threads[t := Claiming(id)][t := Finished] == w.threads[t := Finished];
    }
  }

  /** An answer to a waiting question resumes its call exactly if it settles the question and is not a refusal; a
      refusal settles it without; any other answer is rejected and leaves it waiting. */
  lemma AnswerResumes(w: World, t: nat, id: string, answer: Answer)
    requires t !in w.threads
    ensures var a := Step(w, BeginResolve(t, id, answer));
            && Enabled(a, Take(t))
            && var b := Step(a, Take(t));
               && b.seen == w.seen
               && if id in w.pending && AnswerOk(w.pending[id], answer) then
                    && b.pending == w.pending - {id} && b.trace == w.trace + [Taken(id)]
                    && (if answer.status.Answered?
                        then Enabled(b, Resume(t)) && Step(b, Resume(t)).trace == w.trace + [Taken(id), Resumed(id)]
                        else b.threads[t] == Finished)
                  else b.pending == w.pending && b.trace == w.trace + [Rejected(id)] && b.threads[t] == Finished
  {
    hide AnswerOk, ReservableIds;
    assert w.trace + [Taken(id)] + [Resumed(id)] == w.trace + [Taken(id), Resumed(id)];
  }

  /** A reservation goes through exactly in an unused session, for different identities of 1 to 512 bytes; then all of
      them count as seen, and otherwise none. */
  lemma ReservationIsAllOrNothing(w: World, ids: seq<string>)
    ensures var v := Step(w, Reserve(ids));
            && v == w.(seen := v.seen)
            && if w.seen == {} && (forall i :: 0 <= i < |ids| ==> ids[i] != "" && ByteLength(ids[i]) <= 512)
                  && (forall i, j :: 0 <= i < j < |ids| ==> ids[i] != ids[j])
               then forall id :: id in v.seen <==> id in ids
               else v.seen == w.seen
  {
    hide AnswerOk, ByteLength;
    if Reservable(w.seen, ids) {
      forall i | 0 <= i < |ids| ensures ids[i] != "" && ByteLength(ids[i]) <= 512 { assert ids[i] in ids; }
      forall i, j | 0 <= i < j < |ids| ensures ids[i] != ids[j] { assert Distinct(ids); }
    }
  }

  /** A running call that comes back with a question leaves it waiting; one that comes back without is over. */
  lemma QuestionIsParked(w: World, t: nat, q: Question)
    requires t in w.threads && w.threads[t].Running?
    ensures var id, a, b := w.threads[t].id, Step(w, Return(t, Some(q))), Step(w, Return(t, None));
            && Enabled(a, Park(t)) && a.pending == w.pending && a.seen == w.seen
            && Step(a, Park(t)).pending == w.pending[id := q] && Step(a, Park(t)).seen == w.seen && Step(a, Park(t)).threads[t] == Finished
            && b.pending == w.pending && b.seen == w.seen && b.threads[t] == Finished
  {
    hide AnswerOk, ReservableIds;
  }
}
