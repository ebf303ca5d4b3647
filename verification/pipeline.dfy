/**
  The session pipeline (forum_agent/pipeline.py): finals to transcript lines, lines to
  translations, over two queues and two worker threads.

  Each step is one queue operation, one event flag, one file append, or one answer of a model.
  What the recogniser and the translator answer, and whether they fail, is open; file appends
  succeed. The transcript and the translations are the lines of their files.
 */
module PipelineModel {
  import opened Common

  type Audio = nat
  type Text = string

  /** A transcript line on its way to the translator. */
  datatype Job = Job(id: nat, text: Text)

  datatype Feeder = Outside | Cleared(audio: Audio)          // in submit_final, before the put

  datatype Recogniser =
    | Waiting
    | Working(audio: Audio)
    | Numbered(text: Text)                                   // seq raised, line not yet written
    | Written(text: Text)                                    // line written, not yet queued for translation
    | Done                                                   // before the test for an empty queue
    | FoundEmpty                                             // before setting idle
    | Stopped

  datatype Translator = Free | Translating(job: Job) | Translated(job: Job, text: Text) | Ended

  datatype State = State(
    finals: seq<Audio>,
    jobs: seq<Job>,
    feeder: Feeder,
    recogniser: Recogniser,
    translator: Translator,
    seqNo: nat,
    transcript: seq<Text>,
    translations: seq<Job>,
    idle: bool,
    closed: bool,
    submitted: seq<Audio>,                                   // every put, in order
    taken: nat)                                              // how many of them were taken out again

  const START := State([], [], Outside, Waiting, Free, 0, [], [], true, false, [], 0)

  datatype Action =
    | FeedClear(audio: Audio)
    | FeedPut
    | Take
    | Recognise(text: Text)                                  // empty: no speech in it
    | RecogniseFails
    | WriteLine
    | AnnounceFails                                          // after the line is written
    | QueueJob
    | TestEmpty
    | SetIdle
    | StopRecogniser
    | TakeJob
    | Translate(text: Text)                                  // empty: nothing to show
    | WriteTranslation
    | StopTranslator
    | Close

  function RecogniserNext(s: State, a: Action): Option<State> {
    match a
    case Take =>
      if !s.recogniser.Waiting? || s.finals == [] then None
      else Some(s.(recogniser := Working(s.finals[0]), finals := s.finals[1..], taken := s.taken + 1))
    case Recognise(text) =>
      if !s.recogniser.Working? then None
      else if text == "" then Some(s.(recogniser := Done))
      else Some(s.(recogniser := Numbered(text), seqNo := s.seqNo + 1))
    case RecogniseFails => if !s.recogniser.Working? then None else Some(s.(recogniser := Done))
    case WriteLine =>
      if !s.recogniser.Numbered? then None
      else Some(s.(recogniser := Written(s.recogniser.text), transcript := s.transcript + [s.recogniser.text]))
    case AnnounceFails => if !s.recogniser.Written? then None else Some(s.(recogniser := Done))
    case QueueJob =>
      if !s.recogniser.Written? then None
      else Some(s.(recogniser := Done, jobs := s.jobs + [Job(s.seqNo, s.recogniser.text)]))
    case TestEmpty =>
      if !s.recogniser.Done? then None else Some(s.(recogniser := if s.finals == [] then FoundEmpty else Waiting))
    case SetIdle => if !s.recogniser.FoundEmpty? then None else Some(s.(recogniser := Waiting, idle := true))
    case StopRecogniser => if !s.recogniser.Waiting? || !s.closed then None else Some(s.(recogniser := Stopped))
    case _ => None
  }

  function TranslatorNext(s: State, a: Action): Option<State> {
    match a
    case TakeJob =>
      if !s.translator.Free? || s.jobs == [] then None
      else Some(s.(translator := Translating(s.jobs[0]), jobs := s.jobs[1..]))
    case Translate(text) =>
      if !s.translator.Translating? then None
      else if text == "" || s.closed then Some(s.(translator := Free))
      else Some(s.(translator := Translated(s.translator.job, text)))
    case WriteTranslation =>
      if !s.translator.Translated? then None
      else
        Some(s.(translator := Free, translations := s.translations + [Job(s.translator.job.id, s.translator.text)]))
    case StopTranslator => if !s.translator.Free? || !s.closed then None else Some(s.(translator := Ended))
    case _ => None
  }

  function Next(s: State, a: Action): Option<State> {
    match a
    case FeedClear(audio) => if !s.feeder.Outside? then None else Some(s.(feeder := Cleared(audio), idle := false))
    case FeedPut =>
      if !s.feeder.Cleared? then None
      else
        Some(s.(feeder := Outside, finals := s.finals + [s.feeder.audio], submitted := s.submitted + [s.feeder.audio]))
    case Close => Some(s.(closed := true))
    case TakeJob => TranslatorNext(s, a)
    case Translate(_) => TranslatorNext(s, a)
    case WriteTranslation => TranslatorNext(s, a)
    case StopTranslator => TranslatorNext(s, a)
    case _ => RecogniserNext(s, a)
  }

  function Run(s: State, schedule: seq<Action>): Option<State> {
    if schedule == [] then Some(s)
    else
      var before := Run(s, schedule[..|schedule| - 1]);
      if before.None? then None else Next(before.value, schedule[|schedule| - 1])
  }

  ghost predicate Reachable(s: State) {
    exists schedule :: Run(START, schedule) == Some(s)
  }

  lemma ReachesNext(s: State, a: Action, t: State)
    requires Reachable(s) && Next(s, a) == Some(t)
    ensures Reachable(t)
  {
    var schedule :| Run(START, schedule) == Some(s);
    assert (schedule + [a])[..|schedule|] == schedule;
    assert Run(START, schedule + [a]) == Some(t);
  }

  // ----- The invariant -----

  /** The job is for a line that is written, and says what the line says. */
  predicate OfLine(s: State, j: Job) {
    1 <= j.id <= |s.transcript| && j.text == s.transcript[j.id - 1]
  }

  ghost predicate LinesInv(s: State) {
    && s.seqNo == |s.transcript| + (if s.recogniser.Numbered? then 1 else 0)
    && (s.recogniser.Written? ==> s.transcript != [] && s.transcript[|s.transcript| - 1] == s.recogniser.text)
    && (forall i :: 0 <= i < |s.jobs| ==> OfLine(s, s.jobs[i]))
    && (s.translator.Translating? || s.translator.Translated? ==> OfLine(s, s.translator.job))
    && (forall i :: 0 <= i < |s.translations| ==> 1 <= s.translations[i].id <= |s.transcript|)
    && (s.recogniser.Written? ==> forall i :: 0 <= i < |s.jobs| ==> s.jobs[i].id < |s.transcript|)
  }

  ghost predicate OrderInv(s: State) {
    && (forall i, j :: 0 <= i < j < |s.translations| ==> s.translations[i].id < s.translations[j].id)
    && (forall i :: 0 <= i < |s.translations| ==>
          forall j :: 0 <= j < |s.jobs| ==> s.translations[i].id < s.jobs[j].id)
    && (s.translator.Translating? || s.translator.Translated? ==>
          && (forall i :: 0 <= i < |s.translations| ==> s.translations[i].id < s.translator.job.id)
          && (forall i :: 0 <= i < |s.jobs| ==> s.translator.job.id < s.jobs[i].id))
    && (forall i, j :: 0 <= i < j < |s.jobs| ==> s.jobs[i].id < s.jobs[j].id)
    && (s.recogniser.Written? ==>
          && (forall i :: 0 <= i < |s.translations| ==> s.translations[i].id < |s.transcript|)
          && (s.translator.Translating? || s.translator.Translated? ==> s.translator.job.id < |s.transcript|))
  }

  /** What was put is taken in order, or still queued. */
  ghost predicate QueueInv(s: State) {
    && s.taken <= |s.submitted| && s.submitted[s.taken..] == s.finals
    && |s.transcript| + (if s.recogniser.Working? || s.recogniser.Numbered? then 1 else 0) <= s.taken
  }

  ghost predicate Inv(s: State) { LinesInv(s) && OrderInv(s) && QueueInv(s) }

  lemma RecogniserKeepsLines(s: State, a: Action)
    requires LinesInv(s) && RecogniserNext(s, a).Some?
    ensures LinesInv(RecogniserNext(s, a).value)
  {
  }

  lemma TakeJobKeepsLines(s: State)
    requires LinesInv(s) && s.translator.Free? && s.jobs != []
    ensures LinesInv(TranslatorNext(s, TakeJob).value)
  {
  }

  lemma WriteTranslationKeepsLines(s: State)
    requires LinesInv(s) && s.translator.Translated?
    ensures LinesInv(TranslatorNext(s, WriteTranslation).value)
  {
  }

  lemma TranslatorKeepsLines(s: State, a: Action)
    requires LinesInv(s) && TranslatorNext(s, a).Some?
    ensures LinesInv(TranslatorNext(s, a).value)
  {
    match a
    case TakeJob => TakeJobKeepsLines(s);
    case WriteTranslation => WriteTranslationKeepsLines(s);
    case _ =>
  }

  lemma StepKeepsLines(s: State, a: Action)
    requires LinesInv(s) && Next(s, a).Some?
    ensures LinesInv(Next(s, a).value)
  {
    if RecogniserNext(s, a).Some? {
      RecogniserKeepsLines(s, a);
    } else if TranslatorNext(s, a).Some? {
      TranslatorKeepsLines(s, a);
    }
  }

  lemma QueueJobKeepsOrder(s: State)
    requires LinesInv(s) && OrderInv(s) && s.recogniser.Written?
    ensures OrderInv(RecogniserNext(s, QueueJob).value)
  {
  }

  lemma WriteLineKeepsOrder(s: State)
    requires LinesInv(s) && OrderInv(s) && s.recogniser.Numbered?
    ensures OrderInv(RecogniserNext(s, WriteLine).value)
  {
  }

  /** No line is written and no job queued or translated. */
  lemma SameOrder(s: State, t: State)
    requires OrderInv(s) && !t.recogniser.Written?
    requires t.jobs == s.jobs && t.translator == s.translator && t.translations == s.translations
    ensures OrderInv(t)
  {
  }

  lemma RecogniserKeepsOrder(s: State, a: Action)
    requires LinesInv(s) && OrderInv(s) && RecogniserNext(s, a).Some?
    ensures OrderInv(RecogniserNext(s, a).value)
  {
    if a.QueueJob? {
      QueueJobKeepsOrder(s);
    } else if a.WriteLine? {
      WriteLineKeepsOrder(s);
    } else {
      SameOrder(s, RecogniserNext(s, a).value);
    }
  }

  lemma TakeJobKeepsOrder(s: State)
    requires LinesInv(s) && OrderInv(s) && s.translator.Free? && s.jobs != []
    ensures OrderInv(TranslatorNext(s, TakeJob).value)
  {
  }

  lemma WriteTranslationKeepsOrder(s: State)
    requires OrderInv(s) && s.translator.Translated?
    ensures OrderInv(TranslatorNext(s, WriteTranslation).value)
  {
  }

  lemma TranslatorKeepsOrder(s: State, a: Action)
    requires LinesInv(s) && OrderInv(s) && TranslatorNext(s, a).Some?
    ensures OrderInv(TranslatorNext(s, a).value)
  {
    match a
    case TakeJob => TakeJobKeepsOrder(s);
    case WriteTranslation => WriteTranslationKeepsOrder(s);
    case _ =>
  }

  lemma StepKeepsOrder(s: State, a: Action)
    requires LinesInv(s) && OrderInv(s) && Next(s, a).Some?
    ensures OrderInv(Next(s, a).value)
  {
    if RecogniserNext(s, a).Some? {
      RecogniserKeepsOrder(s, a);
    } else if TranslatorNext(s, a).Some? {
      TranslatorKeepsOrder(s, a);
    }
  }

  lemma StepKeepsQueue(s: State, a: Action)
    requires QueueInv(s) && Next(s, a).Some?
    ensures QueueInv(Next(s, a).value)
  {
  }

  lemma {:induction false} RunKeepsInv(s: State, schedule: seq<Action>)
    requires Inv(s) && Run(s, schedule).Some?
    ensures Inv(Run(s, schedule).value)
  {
    if schedule != [] {
      var before := schedule[..|schedule| - 1];
      RunKeepsInv(s, before);
      StepKeepsLines(Run(s, before).value, schedule[|schedule| - 1]);
      StepKeepsOrder(Run(s, before).value, schedule[|schedule| - 1]);
      StepKeepsQueue(Run(s, before).value, schedule[|schedule| - 1]);
    }
  }

  lemma ReachableKeepsInv(s: State)
    requires Reachable(s)
    ensures Inv(s)
  {
    var schedule :| Run(START, schedule) == Some(s);
    RunKeepsInv(START, schedule);
  }

  // ----- What the pipeline promises -----

  /** Segment number k is line k: every number handed out belongs to the line with that number and carries its text. */
  lemma NumbersAreLines(s: State, j: Job)
    requires Reachable(s)
    requires j in s.jobs || (s.translator.Translating? && j == s.translator.job)
    ensures 1 <= j.id <= |s.transcript| && s.transcript[j.id - 1] == j.text
  {
    ReachableKeepsInv(s);
  }

  /** A line is translated at most once, and translations come in the order of their lines. */
  lemma AtMostOneTranslation(s: State, i: nat, j: nat)
    requires Reachable(s) && i < j < |s.translations|
    ensures s.translations[i].id < s.translations[j].id <= |s.transcript|
  {
    ReachableKeepsInv(s);
  }

  /** No final is lost, doubled or overtaken before it is taken, and none gives more than one line. */
  lemma FinalsAreTakenInOrder(s: State)
    requires Reachable(s)
    ensures s.taken <= |s.submitted| && s.finals == s.submitted[s.taken..] && |s.transcript| <= s.taken
  {
    ReachableKeepsInv(s);
  }

  /** A first final is taken and fails. */
  lemma FirstFinalFails(first: Audio) returns (s: State)
    ensures Reachable(s) && s == START.(recogniser := Done, idle := false, submitted := [first], taken := 1)
  {
    assert Run(START, []) == Some(START);
    var cleared := START.(feeder := Cleared(first), idle := false);
    ReachesNext(START, FeedClear(first), cleared);
    var put := START.(finals := [first], idle := false, submitted := [first]);
    assert [] + [first] == [first] && [first][1..] == [];
    ReachesNext(cleared, FeedPut, put);
    var working := put.(recogniser := Working(first), finals := [], taken := 1);
    ReachesNext(put, Take, working);
    s := working.(recogniser := Done);
    ReachesNext(working, RecogniseFails, s);
  }

  /** The idle flag can be set with a final in the queue: the recogniser tests for an empty queue between a clear and its put. */
  lemma IdleWithFinalQueued(first: Audio, second: Audio) returns (s: State)
    ensures Reachable(s) && s.idle && s.finals == [second] && s.recogniser.Waiting? && s.feeder.Outside?
  {
    var done := FirstFinalFails(first);
    var cleared := done.(feeder := Cleared(second));
    ReachesNext(done, FeedClear(second), cleared);
    var empty := cleared.(recogniser := FoundEmpty);
    ReachesNext(cleared, TestEmpty, empty);
    var idle := empty.(recogniser := Waiting, idle := true);
    ReachesNext(empty, SetIdle, idle);
    s := idle.(feeder := Outside, finals := [second], submitted := [first] + [second]);
    assert [] + [second] == [second];
    ReachesNext(idle, FeedPut, s);
  }

  /** The flag tells the truth: when it is set, no final is queued, being put or being worked on. */
  predicate IdleIsRight(s: State) {
    s.idle ==> s.finals == [] && s.feeder.Outside? && !s.recogniser.Working? && !s.recogniser.Numbered? && !s.recogniser.Written?
  }

  /** A right flag goes wrong in exactly one way: it is set while a final is being put or already queued again. */
  lemma IdleGoesWrongIff(s: State, a: Action)
    requires IdleIsRight(s) && Next(s, a).Some?
    ensures !IdleIsRight(Next(s, a).value) <==> a.SetIdle? && (s.feeder.Cleared? || s.finals != [])
  {
  }

  ghost predicate RightAfter(schedule: seq<Action>, n: nat)
    requires n <= |schedule|
  {
    Run(START, schedule[..n]).Some? ==> IdleIsRight(Run(START, schedule[..n]).value)
  }

  /** Step `n` sets the flag while a final is being put or is queued. */
  ghost predicate SetsWhileFed(schedule: seq<Action>, n: nat)
    requires n < |schedule|
  {
    && schedule[n].SetIdle? && Run(START, schedule[..n]).Some?
    && var s := Run(START, schedule[..n]).value;
       s.feeder.Cleared? || s.finals != []
  }

  lemma RightStep(schedule: seq<Action>, n: nat)
    requires n < |schedule| && Run(START, schedule[..n + 1]).Some? && RightAfter(schedule, n)
    ensures RightAfter(schedule, n + 1) <==> !SetsWhileFed(schedule, n)
  {
    assert schedule[..n + 1][..n] == schedule[..n];
    IdleGoesWrongIff(Run(START, schedule[..n]).value, schedule[n]);
  }

  /** The flag tells the truth at every moment up to step `n`. */
  ghost predicate AlwaysRight(schedule: seq<Action>, n: nat)
    requires n <= |schedule|
  {
    forall m :: 0 <= m <= n ==> RightAfter(schedule, m)
  }

  /** No step before `n` sets it while a final is being put or is queued. */
  ghost predicate NeverSetWhileFed(schedule: seq<Action>, n: nat)
    requires n <= |schedule|
  {
    forall m :: 0 <= m < n ==> !SetsWhileFed(schedule, m)
  }

  lemma OneStepMore(schedule: seq<Action>, n: nat, m: nat)
    requires m == n + 1 <= |schedule|
    ensures AlwaysRight(schedule, m) <==> AlwaysRight(schedule, n) && RightAfter(schedule, m)
    ensures NeverSetWhileFed(schedule, m) <==> NeverSetWhileFed(schedule, n) && !SetsWhileFed(schedule, n)
  {
  }

  lemma {:induction false} RightUpTo(schedule: seq<Action>, n: nat)
    requires n <= |schedule| && Run(START, schedule[..n]).Some?
    ensures AlwaysRight(schedule, n) <==> NeverSetWhileFed(schedule, n)
  {
    if n > 0 {
      assert schedule[..n][..n - 1] == schedule[..n - 1];
      RightUpTo(schedule, n - 1);
      OneStepMore(schedule, n - 1, n);
      if AlwaysRight(schedule, n - 1) {
        RightStep(schedule, n - 1);
      }
    }
  }

  /** Over every run, the flag tells the truth all along exactly when it is never set while a final is being put or is queued. */
  lemma IdleIsRightIff(schedule: seq<Action>)
    requires Run(START, schedule).Some?
    ensures AlwaysRight(schedule, |schedule|) <==> NeverSetWhileFed(schedule, |schedule|)
  {
    assert schedule[..|schedule|] == schedule;
    RightUpTo(schedule, |schedule|);
  }

  // ----- What becomes of a final and of a job -----

  /** The schedule leads from `s` to `t`. The quantifier keeps `Run` folded where only this is needed. */
  ghost predicate Leads(s: State, schedule: seq<Action>, t: State) {
    forall steps :: steps == schedule ==> Run(s, steps) == Some(t)
  }

  lemma LeadsSelf(s: State)
    ensures Leads(s, [], s)
  {
  }

  lemma Then(s: State, schedule: seq<Action>, t: State, a: Action, u: State) returns (longer: seq<Action>)
    requires Leads(s, schedule, t) && Next(t, a) == Some(u)
    ensures longer == schedule + [a] && Leads(s, longer, u)
  {
    longer := schedule + [a];
    assert longer[..|schedule|] == schedule;
    assert Run(s, schedule) == Some(t);
  }

  lemma First(s: State, a: Action, t: State) returns (schedule: seq<Action>)
    requires Next(s, a) == Some(t)
    ensures schedule == [a] && Leads(s, schedule, t)
  {
    LeadsSelf(s);
    schedule := Then(s, [], s, a, t);
  }

  /** A submitted final clears the flag and goes behind the others. */
  lemma FinalIsQueued(s: State, audio: Audio)
    requires s.feeder.Outside?
    ensures
      Leads(s, [FeedClear(audio), FeedPut],
            s.(idle := false, finals := s.finals + [audio], submitted := s.submitted + [audio]))
  {
    var cleared := s.(feeder := Cleared(audio), idle := false);
    var schedule := First(s, FeedClear(audio), cleared);
    schedule := Then(s, schedule, cleared, FeedPut,
                     s.(idle := false, finals := s.finals + [audio], submitted := s.submitted + [audio]));
  }

  lemma FinalIsTaken(s: State, audio: Audio, rest: seq<Audio>) returns (schedule: seq<Action>)
    requires s.recogniser.Waiting? && s.finals == [audio] + rest
    ensures schedule == [Take] && Leads(s, schedule, s.(recogniser := Working(audio), finals := rest, taken := s.taken + 1))
  {
    assert s.finals[0] == audio && s.finals[1..] == rest;
    schedule := First(s, Take, s.(recogniser := Working(audio), finals := rest, taken := s.taken + 1));
  }

  /** Speech in it becomes the next line, and its translation the next job, with the line's number. */
  lemma FinalBecomesLine(s: State, audio: Audio, rest: seq<Audio>, text: Text)
    requires s.recogniser.Waiting? && s.finals == [audio] + rest && text != ""
    ensures
      Leads(s, [Take, Recognise(text), WriteLine, QueueJob],
            s.(recogniser := Done, finals := rest, taken := s.taken + 1, seqNo := s.seqNo + 1,
               transcript := s.transcript + [text], jobs := s.jobs + [Job(s.seqNo + 1, text)]))
  {
    var schedule := FinalIsTaken(s, audio, rest);
    var t := s.(finals := rest, taken := s.taken + 1);
    var numbered := t.(recogniser := Numbered(text), seqNo := s.seqNo + 1);
    schedule := Then(s, schedule, t.(recogniser := Working(audio)), Recognise(text), numbered);
    var written := numbered.(recogniser := Written(text), transcript := s.transcript + [text]);
    schedule := Then(s, schedule, numbered, WriteLine, written);
    schedule := Then(s, schedule, written, QueueJob, written.(recogniser := Done, jobs := s.jobs + [Job(s.seqNo + 1, text)]));
  }

  /** A line that cannot be announced stays without a translation; no speech and a failure leave nothing. */
  lemma FinalLeavesLess(s: State, audio: Audio, rest: seq<Audio>, text: Text)
    requires s.recogniser.Waiting? && s.finals == [audio] + rest && text != ""
    ensures
      var t := s.(recogniser := Done, finals := rest, taken := s.taken + 1);
      && Leads(s, [Take, Recognise("")], t)
      && Leads(s, [Take, RecogniseFails], t)
      && Leads(s, [Take, Recognise(text), WriteLine, AnnounceFails],
               t.(seqNo := s.seqNo + 1, transcript := s.transcript + [text]))
  {
    var taken := FinalIsTaken(s, audio, rest);
    var t := s.(finals := rest, taken := s.taken + 1);
    var working := t.(recogniser := Working(audio));
    var schedule := Then(s, taken, working, Recognise(""), t.(recogniser := Done));
    schedule := Then(s, taken, working, RecogniseFails, t.(recogniser := Done));
    var numbered := t.(recogniser := Numbered(text), seqNo := s.seqNo + 1);
    schedule := Then(s, taken, working, Recognise(text), numbered);
    var written := numbered.(recogniser := Written(text), transcript := s.transcript + [text]);
    schedule := Then(s, schedule, numbered, WriteLine, written);
    schedule := Then(s, schedule, written, AnnounceFails, written.(recogniser := Done));
  }

  /** After a final the flag is set exactly when no other is queued. */
  lemma DoneSetsIdleIff(s: State)
    requires s.recogniser.Done?
    ensures s.finals == [] ==> Leads(s, [TestEmpty, SetIdle], s.(recogniser := Waiting, idle := true))
    ensures s.finals != [] ==> Leads(s, [TestEmpty], s.(recogniser := Waiting))
  {
    var next := s.(recogniser := if s.finals == [] then FoundEmpty else Waiting);
    var schedule := First(s, TestEmpty, next);
    if s.finals == [] {
      schedule := Then(s, schedule, next, SetIdle, s.(recogniser := Waiting, idle := true));
    }
  }

  lemma JobIsTaken(s: State, job: Job, rest: seq<Job>) returns (schedule: seq<Action>)
    requires s.translator.Free? && s.jobs == [job] + rest
    ensures schedule == [TakeJob] && Leads(s, schedule, s.(translator := Translating(job), jobs := rest))
  {
    assert s.jobs[0] == job && s.jobs[1..] == rest;
    schedule := First(s, TakeJob, s.(translator := Translating(job), jobs := rest));
  }

  /** The oldest job's translation is written under its line's number, unless it is empty or the pipeline is closed by then. */
  lemma JobIsTranslated(s: State, job: Job, rest: seq<Job>, text: Text)
    requires s.translator.Free? && s.jobs == [job] + rest
    ensures text != "" && !s.closed ==>
              Leads(s, [TakeJob, Translate(text), WriteTranslation],
                    s.(jobs := rest, translations := s.translations + [Job(job.id, text)]))
    ensures text == "" || s.closed ==> Leads(s, [TakeJob, Translate(text)], s.(jobs := rest))
  {
    var schedule := JobIsTaken(s, job, rest);
    var t := s.(jobs := rest);
    var translating := t.(translator := Translating(job));
    if text == "" || s.closed {
      schedule := Then(s, schedule, translating, Translate(text), t);
    } else {
      schedule := Then(s, schedule, translating, Translate(text), t.(translator := Translated(job, text)));
      schedule := Then(s, schedule, t.(translator := Translated(job, text)), WriteTranslation,
                       t.(translations := s.translations + [Job(job.id, text)]));
    }
  }

  /** Closing ends both threads at their next look, and neither ends without it. */
  lemma ClosingEndsThreads(s: State)
    ensures Leads(s, [Close], s.(closed := true))
    ensures s.recogniser.Waiting? ==> Leads(s, [Close, StopRecogniser], s.(closed := true, recogniser := Stopped))
    ensures s.translator.Free? ==> Leads(s, [Close, StopTranslator], s.(closed := true, translator := Ended))
    ensures !s.closed ==> Next(s, StopRecogniser) == None && Next(s, StopTranslator) == None
  {
    var closed := s.(closed := true);
    var schedule := First(s, Close, closed);
    if s.recogniser.Waiting? {
      var ended := Then(s, schedule, closed, StopRecogniser, closed.(recogniser := Stopped));
    }
    if s.translator.Free? {
      var ended := Then(s, schedule, closed, StopTranslator, closed.(translator := Ended));
    }
  }

  /** From the start on: a final with speech in it is a line, and its translation is written. */
  lemma FirstFinalIsTranslated(audio: Audio, text: Text, translation: Text)
    requires text != "" && translation != ""
    ensures
      Leads(START,
            [FeedClear(audio), FeedPut, Take, Recognise(text), WriteLine, QueueJob, TestEmpty, SetIdle, TakeJob, Translate(translation), WriteTranslation],
            State([], [], Outside, Waiting, Free, 1, [text], [Job(1, translation)], true, false, [audio], 1))
  {
    var queued := START.(idle := false, finals := [audio], submitted := [audio]);
    assert [] + [audio] == [audio] && [audio] + [] == [audio];
    FinalIsQueued(START, audio);
    FinalBecomesLine(queued, audio, [], text);
    var lined := queued.(recogniser := Done, finals := [], taken := 1, seqNo := 1, transcript := [text], jobs := [Job(1, text)]);
    assert [] + [text] == [text] && [] + [Job(1, text)] == [Job(1, text)] && [Job(1, text)] + [] == [Job(1, text)];
    var schedule := LeadsOn(START, [FeedClear(audio), FeedPut], queued, [Take, Recognise(text), WriteLine, QueueJob], lined);
    DoneSetsIdleIff(lined);
    var idle := lined.(recogniser := Waiting, idle := true);
    schedule := LeadsOn(START, schedule, lined, [TestEmpty, SetIdle], idle);
    JobIsTranslated(idle, Job(1, text), [], translation);
    assert [] + [Job(1, translation)] == [Job(1, translation)];
    schedule := LeadsOn(START, schedule, idle, [TakeJob, Translate(translation), WriteTranslation],
                        idle.(jobs := [], translations := [Job(1, translation)]));
  }

  /** The last step of a schedule that leads somewhere. */
  lemma LeadsMost(s: State, schedule: seq<Action>, last: nat, u: State) returns (t: State)
    requires Leads(s, schedule, u) && |schedule| == last + 1
    ensures Leads(s, schedule[..last], t) && Next(t, schedule[last]) == Some(u)
  {
    assert Run(s, schedule) == Some(u);
    t := Run(s, schedule[..last]).value;
  }

  lemma LeadsNowhere(s: State, t: State)
    requires Leads(s, [], t)
    ensures t == s
  {
    assert Run(s, []) == Some(t);
  }

  lemma {:induction false} LeadsOn(s: State, first: seq<Action>, t: State, second: seq<Action>, u: State) returns (both: seq<Action>)
    requires Leads(s, first, t) && Leads(t, second, u)
    ensures both == first + second && Leads(s, both, u)
    decreases |second|
  {
    if second == [] {
      LeadsNowhere(t, u);
      assert first + second == first;
      both := first;
    } else {
      var last := |second| - 1;
      var most, a := second[..last], second[last];
      var v := LeadsMost(t, second, last, u);
      both := LeadsOn(s, first, t, most, v);
      both := Then(s, both, v, a, u);
      assert both == first + second;
    }
  }

  // ----- The counters and files in place -----

  class Pipeline {
    var seqNo: nat
    var transcript: seq<Text>
    var jobs: seq<Job>

    /** Lines are numbered by position, and queued jobs are for written lines. */
    ghost predicate Valid()
      reads this
    {
      && seqNo == |transcript|
      && forall i :: 0 <= i < |jobs| ==> 1 <= jobs[i].id <= |transcript| && jobs[i].text == transcript[jobs[i].id - 1]
    }

    constructor ()
      ensures Valid() && transcript == [] && jobs == []
    {
      seqNo, transcript, jobs := 0, [], [];
    }

    method OnFinal(text: Text)
      requires Valid()
      modifies this
      ensures Valid()
      ensures transcript == old(transcript) + (if text == "" then [] else [text])
      ensures jobs == old(jobs) + (if text == "" then [] else [Job(|transcript|, text)])
    {
      if text == "" {
        return;
      }
      seqNo := seqNo + 1;
      transcript := transcript + [text];
      jobs := jobs + [Job(seqNo, text)];
    }
  }
}
