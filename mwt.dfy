/** `Mwt`, the decision engine: it salts the caller's key with the
    application id, asks an explorer for a decision, hands that decision
    with the unsalted key to its recorder, and returns the action. */
module MultiWorld {
  import opened Values
  import opened Explorers
  import opened Recording

  /** The seed the explorer receives: the caller's key with the application
      id appended. */
  function Seed(uniqueKey: string, appId: string): (s: string)
    ensures |s| == |uniqueKey| + |appId|
    ensures s[..|uniqueKey|] == uniqueKey && s[|uniqueKey|..] == appId
  {
    uniqueKey + appId
  }

  /** Within one engine (one application id) distinct keys give distinct
      seeds. */
  lemma SeedInjective(key1: string, key2: string, appId: string)
    ensures Seed(key1, appId) == Seed(key2, appId) <==> key1 == key2
  {
  }

  /** Across engines the plain concatenation can collide: the seed alone
      does not tell where the key ends and the application id begins. */
  lemma SeedAmbiguousAcrossApps()
    ensures Seed("ab", "c") == Seed("a", "bc")
  {
  }

  class Mwt<!Ctx> {
    /** The application id; the engine never changes it after construction. */
    const appId: string
    const recorder: StringRecorder<Ctx>

    /** The engine keeps the application id and a reference to the recorder. */
    constructor (appId: string, recorder: StringRecorder<Ctx>)
      ensures this.appId == appId && this.recorder == recorder
    {
      this.appId := appId;
      this.recorder := recorder;
    }

    /** The typed overload for an epsilon-greedy explorer. */
    method ChooseEpsilonGreedy(explorer: Explorer<Ctx>, context: Ctx, uniqueKey: string) returns (action: U32)
      requires explorer.EpsilonGreedy?
      requires recorder.Valid()
      modifies recorder
      ensures recorder.Valid()
      ensures var d := EpsilonGreedyChooseAction(explorer, context, Seed(uniqueKey, appId));
              var e := Entry(context, d.action, d.probability, uniqueKey);
              && action == d.action
              && recorder.log == old(recorder.log) + [e]
              && recorder.recording == old(recorder.recording) + EntryText(recorder.format, e)
    {
      action := ChooseAction((c: Ctx, seed: string) => Explorers.ChooseAction(explorer, c, seed), context, uniqueKey);
    }

    /** The typed overload for a softmax explorer. */
    method ChooseSoftmax(explorer: Explorer<Ctx>, context: Ctx, uniqueKey: string) returns (action: U32)
      requires explorer.Softmax?
      requires recorder.Valid()
      modifies recorder
      ensures recorder.Valid()
      ensures var d := SoftmaxChooseAction(explorer, context, Seed(uniqueKey, appId));
              var e := Entry(context, d.action, d.probability, uniqueKey);
              && action == d.action
              && recorder.log == old(recorder.log) + [e]
              && recorder.recording == old(recorder.recording) + EntryText(recorder.format, e)
    {
      action := ChooseAction((c: Ctx, seed: string) => Explorers.ChooseAction(explorer, c, seed), context, uniqueKey);
    }

    /** The private template both overloads route to, for any explorer:
        `select` is that explorer's `Choose_Action`, a function of the
        context and the seed. The explorer is asked with the salted seed; the
        recorder is then called exactly once, with the explorer's action and
        probability unchanged and with the caller's unsalted key; the
        explorer's action is returned. Nothing but the recorder changes, and
        its recording grows by that one entry's text. */
    method ChooseAction(select: (Ctx, string) -> Decision, context: Ctx, uniqueKey: string) returns (action: U32)
      requires recorder.Valid()
      modifies recorder
      ensures recorder.Valid()
      ensures var d := select(context, Seed(uniqueKey, appId));
              var e := Entry(context, d.action, d.probability, uniqueKey);
              && action == d.action
              && recorder.log == old(recorder.log) + [e]
              && recorder.recording == old(recorder.recording) + EntryText(recorder.format, e)
    {
      var actionProb := select(context, uniqueKey + appId);
      recorder.Record(context, actionProb.action, actionProb.probability, uniqueKey);
      action := actionProb.action;
    }
  }

  /** The demonstration's context: it has no data and its text is empty. */
  datatype ExampleContext = ExampleContext

  /** A text format for the demonstration. Only `0.f` is ever formatted here,
      and `std::to_string` renders it as "0.000000"; other values are not
      needed and are given the empty text. */
  function ExampleFormat(): Format<ExampleContext> {
    Format((c: ExampleContext) => "", (p: Float32) => if p == PositiveZero then "0.000000" else "")
  }

  /** The first demonstration: an epsilon-greedy explorer (epsilon 0.5, ten
      actions) over a policy that always answers 0, behind an engine salted
      with "salt" and a string recorder, asked once with the key "key". */
  method ExampleEpsilonGreedy() returns (action: U32, recording: string)
    ensures action == 0
    ensures recording == "00.000000key"
  {
    var recorder := new StringRecorder<ExampleContext>(ExampleFormat());
    var mwt := new Mwt<ExampleContext>("salt", recorder);
    var explorer := EpsilonGreedy(Float32(0x3f00_0000), 10, (c: ExampleContext) => 0);
    action := mwt.ChooseEpsilonGreedy(explorer, ExampleContext, "key");
    recording := recorder.recording;
  }

  /** The second demonstration with a softmax explorer (lambda 0.5, ten
      actions). It asks once with "key", as the source does, and once more
      with "key2", to show both entries in call order. */
  method ExampleSoftmax() returns (first: U32, second: U32, recording: string)
    ensures first == 0 && second == 0
    ensures recording == "00.000000key" + "00.000000key2"
  {
    var recorder := new StringRecorder<ExampleContext>(ExampleFormat());
    var mwt := new Mwt<ExampleContext>("salt", recorder);
    var explorer := Softmax(Float32(0x3f00_0000), 10, (c: ExampleContext) => 0);
    first := mwt.ChooseSoftmax(explorer, ExampleContext, "key");
    second := mwt.ChooseSoftmax(explorer, ExampleContext, "key2");
    recording := recorder.recording;
  }

  /** An explorer whose decision does depend on its seed: it answers 1 for
      the seed "keysalt" and 0 for every other seed. Asked with the key "key"
      by an engine salted with "salt", it answers 1, so it was given exactly
      the key followed by the salt; the recording keeps the unsalted key. */
  method ExampleSeedReachesExplorer() returns (action: U32, recording: string)
    ensures action == 1
    ensures recording == "10.000000key"
  {
    var recorder := new StringRecorder<ExampleContext>(ExampleFormat());
    var mwt := new Mwt<ExampleContext>("salt", recorder);
    var saltedKeyOnly := (c: ExampleContext, seed: string) =>
      Decision(if seed == "keysalt" then 1 else 0, PositiveZero);
    action := mwt.ChooseAction(saltedKeyOnly, ExampleContext, "key");
    recording := recorder.recording;
  }
}

