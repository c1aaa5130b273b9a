/** `StringRecorder`, the default recorder: it keeps one growing string to
    which every recorded decision appends its context text, its action, its
    probability and its key, one after another, with no separators. */
module Recording {
  import opened Values
  import opened Decimal

  /** The two text conversions the recorder relies on but does not define:
      the context's `To_String()` and `std::to_string` on a `float`. */
  datatype Format<!Ctx> = Format(contextText: Ctx -> string, floatText: Float32 -> string)

  /** One recorded decision: the four arguments of one `Record` call. */
  datatype Entry<Ctx> = Entry(context: Ctx, action: U32, probability: Float32, uniqueKey: string)

  /** The text one `Record` call appends, pieces in call order. */
  function EntryText<Ctx>(format: Format<Ctx>, e: Entry<Ctx>): string {
    format.contextText(e.context) + DecimalString(e.action) + format.floatText(e.probability) + e.uniqueKey
  }

  /** The recording after the calls `log`, in order, starting from empty. */
  function Transcript<Ctx>(format: Format<Ctx>, log: seq<Entry<Ctx>>): string
    decreases |log|
  {
    if log == [] then "" else EntryText(format, log[0]) + Transcript(format, log[1..])
  }

  /** Recording two runs of calls one after the other gives the two
      recordings one after the other. */
  lemma {:induction false} TranscriptConcat<Ctx>(format: Format<Ctx>, log1: seq<Entry<Ctx>>, log2: seq<Entry<Ctx>>)
    ensures Transcript(format, log1 + log2) == Transcript(format, log1) + Transcript(format, log2)
    decreases |log1|
  {
    if log1 == [] {
      assert log1 + log2 == log2;
    } else {
      assert (log1 + log2)[1..] == log1[1..] + log2;
      TranscriptConcat(format, log1[1..], log2);
    }
  }

  /** One more call appends exactly that call's text. */
  lemma TranscriptAppend<Ctx>(format: Format<Ctx>, log: seq<Entry<Ctx>>, e: Entry<Ctx>)
    ensures Transcript(format, log + [e]) == Transcript(format, log) + EntryText(format, e)
  {
    TranscriptConcat(format, log, [e]);
    assert [e][1..] == [];
  }

  /** Append-only: the recording after the first n calls is a prefix of the
      recording after all of them. */
  lemma TranscriptPrefix<Ctx>(format: Format<Ctx>, log: seq<Entry<Ctx>>, n: nat)
    requires n <= |log|
    ensures Transcript(format, log[..n]) <= Transcript(format, log)
  {
    assert log == log[..n] + log[n..];
    TranscriptConcat(format, log[..n], log[n..]);
  }

  /** In call order: the i-th call's text sits in the recording right after
      the text of the calls before it. */
  lemma TranscriptEntryAt<Ctx>(format: Format<Ctx>, log: seq<Entry<Ctx>>, i: nat)
    requires i < |log|
    ensures var start := |Transcript(format, log[..i])|;
            var t := Transcript(format, log);
            start + |EntryText(format, log[i])| <= |t| &&
            t[start..start + |EntryText(format, log[i])|] == EntryText(format, log[i])
  {
    assert log == log[..i] + [log[i]] + log[i + 1..];
    TranscriptConcat(format, log[..i] + [log[i]], log[i + 1..]);
    TranscriptAppend(format, log[..i], log[i]);
  }

  /** With no separators the recording does not determine the calls: two
      calls whose keys are "" and "k" leave the same text as one call whose
      key is the first call's text followed by "k". */
  lemma EntryBoundariesLost<Ctx>(format: Format<Ctx>, context: Ctx, action: U32, probability: Float32)
    ensures var first := Entry(context, action, probability, "");
            var merged := Entry(context, action, probability, EntryText(format, first) + "k");
            var split := [first, Entry(context, action, probability, "k")];
            [merged] != split && Transcript(format, [merged]) == Transcript(format, split)
  {
    var first := Entry(context, action, probability, "");
    var second := Entry(context, action, probability, "k");
    var merged := Entry(context, action, probability, EntryText(format, first) + "k");
    TranscriptAppend(format, [first], second);
    assert [first] + [second] == [first, second];
    assert [merged] == [] + [merged];
    TranscriptAppend(format, [], merged);
    assert EntryText(format, second) == EntryText(format, first) + "k";
  }

  /** The default recorder. `recording` is the text the source keeps in
      `m_recording`; `log` is the sequence of calls made so far, kept only
      for the proofs. */
  class StringRecorder<!Ctx> {
    const format: Format<Ctx>
    var recording: string
    ghost var log: seq<Entry<Ctx>>

    ghost predicate Valid()
      reads this
    {
      recording == Transcript(format, log)
    }

    /** A new recorder starts with an empty string. */
    constructor (format: Format<Ctx>)
      ensures Valid()
      ensures this.format == format && recording == "" && log == []
    {
      this.format := format;
      recording := "";
      log := [];
    }

    /** `StringRecorder::Record`: four appends, in this order. */
    method Record(context: Ctx, action: U32, probability: Float32, uniqueKey: string)
      requires Valid()
      modifies this
      ensures Valid()
      ensures log == old(log) + [Entry(context, action, probability, uniqueKey)]
      ensures recording == old(recording) + format.contextText(context) + DecimalString(action)
                                          + format.floatText(probability) + uniqueKey
      ensures old(recording) <= recording
      ensures |recording| == |old(recording)| + |format.contextText(context)| + |DecimalString(action)|
                                              + |format.floatText(probability)| + |uniqueKey|
    {
      ghost var before := recording;
      ghost var e := Entry(context, action, probability, uniqueKey);
      recording := recording + format.contextText(context);
      recording := recording + DecimalString(action);
      recording := recording + format.floatText(probability);
      recording := recording + uniqueKey;
      assert recording == before + EntryText(format, e);
      TranscriptAppend(format, log, e);
      log := log + [e];
    }
  }
}
