/** Writing through flow control: `write_all` and the chunk loop over it. */
module StreamWrites {
  import opened Types

  /** How the QUIC core answers one `write`: it takes up to `limit` bytes, or refuses. */
  datatype Answer = Takes(limit: nat) | Blocks | Stops | Closes

  datatype WriteResult = Done | Failed(error: Error) | Waiting

  function Min(a: nat, b: nat): nat {
    if a < b then a else b
  }

  /** A send stream. `answers` is the core's behaviour, call by call. */
  class SendStream {
    const answers: nat -> Answer
    var calls: nat
    var accepted: Bytes
    var finished: bool

    constructor (answers: nat -> Answer)
      ensures this.answers == answers && calls == 0 && accepted == [] && !finished
    {
      this.answers := answers;
      calls, accepted, finished := 0, [], false;
    }

    method Write(data: Bytes) returns (a: Answer)
      modifies this`calls, this`accepted
      ensures calls == old(calls) + 1 && a == answers(old(calls))
      ensures accepted == old(accepted) + if a.Takes? then data[..Min(a.limit, |data|)] else []
    {
      a := answers(calls);
      calls := calls + 1;
      if a.Takes? {
        accepted := accepted + data[..Min(a.limit, |data|)];
      }
    }
  }

  // --- what the answers come to -------------------------------------------------------------------

  /** The core takes something. */
  predicate Goes(a: Answer) {
    a.Takes? && a.limit > 0
  }

  /** The core takes nothing for now: the call is polled again. */
  predicate Stalls(a: Answer) {
    a == Blocks || a == Takes(0)
  }

  /** The bytes calls `from` up to `to` are ready to take. */
  function Taken(answers: nat -> Answer, from: nat, to: nat): nat {
    if to <= from then 0
    else Taken(answers, from, to - 1) + if answers(to - 1).Takes? then answers(to - 1).limit else 0
  }

  /** The calls among them that stall. */
  function Stalled(answers: nat -> Answer, from: nat, to: nat): nat {
    if to <= from then 0 else Stalled(answers, from, to - 1) + if Stalls(answers(to - 1)) then 1 else 0
  }

  lemma {:induction false} MoreCalls(answers: nat -> Answer, from: nat, mid: nat, to: nat)
    requires from <= mid <= to
    ensures Taken(answers, from, to) == Taken(answers, from, mid) + Taken(answers, mid, to)
    ensures Stalled(answers, from, to) == Stalled(answers, from, mid) + Stalled(answers, mid, to)
  {
    if to > mid {
      MoreCalls(answers, from, mid, to - 1);
    }
  }

  lemma {:induction false} GoingDoesNotStall(answers: nat -> Answer, from: nat, to: nat)
    requires forall c :: from <= c < to ==> Goes(answers(c))
    ensures Stalled(answers, from, to) == 0
  {
    if to > from {
      GoingDoesNotStall(answers, from, to - 1);
    }
  }

  // --- write_all ------------------------------------------------------------------------------------

  lemma SliceGrows(bytes: Bytes, start: nat, offset: nat, n: nat)
    requires start <= offset && offset + n <= |bytes|
    ensures bytes[start..offset] + bytes[offset..][..n] == bytes[start..offset + n]
  {
    assert bytes[offset..][..n] == bytes[offset..offset + n];
  }

  /** Why a poll without an error ended as it did, by the answer to its last call. */
  predicate Explained(r: WriteResult, last: Answer) {
    match r
    case Done => last.Takes?
    case Waiting => Stalls(last)
    case Failed(error) => (error == Reset && last.Stops?) || (error == Closed && last.Closes?)
  }

  /**
   * One poll of `write_all`: bytes from `start` on go to the stream without gap or repeat, and the
   * inner loop ends however the stream answers. It asks the stream until that stalls, fails or has
   * taken everything.
   */
  method WritePoll(stream: SendStream, bytes: Bytes, start: nat, error: Option<Error>)
    returns (r: WriteResult, offset: nat)
    requires start <= |bytes|
    modifies stream`calls, stream`accepted
    ensures start <= offset <= |bytes|
    ensures stream.accepted == old(stream.accepted) + bytes[start..offset]
    ensures r == Done ==> offset == |bytes|
    ensures error.Some? ==> r == Failed(error.value) && offset == start && stream.calls == old(stream.calls)
    ensures error.None? ==> old(stream.calls) < stream.calls && Explained(r, stream.answers(stream.calls - 1))
    ensures error.None? ==> forall c :: old(stream.calls) <= c < stream.calls - 1 ==> Goes(stream.answers(c))
    ensures error.None? && r != Done ==> offset == start + Taken(stream.answers, old(stream.calls), stream.calls)
    ensures error.None? && r != Done && start < |bytes| ==> offset < |bytes|
    ensures error.None? && bytes == [] && r != Done ==> !stream.answers(stream.calls - 1).Takes?
  {
    offset := start;
    if error.Some? {
      return Failed(error.value), start;
    }
    ghost var base := stream.accepted;
    ghost var from := stream.calls;
    while true
      invariant start <= offset <= |bytes| && from <= stream.calls
      invariant stream.accepted == base + bytes[start..offset]
      invariant forall c :: from <= c < stream.calls ==> Goes(stream.answers(c))
      invariant offset == start + Taken(stream.answers, from, stream.calls)
      invariant stream.calls > from || start < |bytes| ==> offset < |bytes|
      decreases |bytes| - offset
    {
      var a := stream.Write(bytes[offset..]);
      match a {
        case Takes(limit) =>
          var written := Min(limit, |bytes| - offset);
          SliceGrows(bytes, start, offset, written);
          offset := offset + written;
          if offset == |bytes| {
            return Done, offset;
          }
          if written == 0 {
            return Waiting, offset;
          }
        case Blocks => return Waiting, offset;
        case Stops => return Failed(Reset), offset;
        case Closes => return Failed(Closed), offset;
      }
    }
  }

  /** Within `n` calls the core is ready for `size` bytes, stalls fewer than `polls` times and does not fail. */
  predicate Suffices(answers: nat -> Answer, from: nat, n: nat, size: nat, polls: nat) {
    && size <= Taken(answers, from, from + n)
    && Stalled(answers, from, from + n) < polls
    && forall c :: from <= c < from + n ==> answers(c).Takes? || answers(c).Blocks?
  }

  /** Where `write_all` stands after polls none of which met an error. */
  ghost predicate Stands(answers: nat -> Answer, from: nat, calls: nat, polls: nat, bytes: Bytes, offset: nat,
                         r: WriteResult)
  {
    && from <= calls
    && (r != Done ==> Taken(answers, from, calls) == offset && (bytes != [] ==> offset < |bytes|))
    && (r == Waiting ==> Stalled(answers, from, calls) == polls)
    && (r.Failed? ==> from < calls && (answers(calls - 1).Stops? || answers(calls - 1).Closes?))
  }

  lemma OnePollOn(answers: nat -> Answer, from: nat, calls: nat, polls: nat, bytes: Bytes, offset: nat,
                  calls': nat, offset': nat, r: WriteResult)
    requires Stands(answers, from, calls, polls, bytes, offset, Waiting) && calls < calls'
    requires forall c :: calls <= c < calls' - 1 ==> Goes(answers(c))
    requires Explained(r, answers(calls' - 1))
    requires r != Done ==> offset' == offset + Taken(answers, calls, calls') && (bytes != [] ==> offset' < |bytes|)
    ensures Stands(answers, from, calls', polls + 1, bytes, offset', r)
  {
    MoreCalls(answers, from, calls, calls');
    GoingDoesNotStall(answers, calls, calls' - 1);
  }

  /** Answers that suffice leave neither a stall nor a failure to end on. */
  lemma SufficientAnswers(answers: nat -> Answer, from: nat, n: nat, calls: nat, size: nat, polls: nat)
    requires Suffices(answers, from, n, size, polls) && from <= calls && Taken(answers, from, calls) < size
    ensures Stalled(answers, from, calls) < polls
    ensures from < calls ==> answers(calls - 1).Takes? || answers(calls - 1).Blocks?
  {
    if from + n <= calls {
      MoreCalls(answers, from, from + n, calls);
    } else {
      MoreCalls(answers, from, calls, from + n);
    }
  }

  lemma EndsInDone(answers: nat -> Answer, from: nat, calls: nat, bytes: Bytes, offset: nat, r: WriteResult, polls: nat)
    requires Stands(answers, from, calls, polls, bytes, offset, r) && bytes != []
    requires SufficeFrom(answers, from, |bytes|, polls)
    ensures r == Done
  {
    var n: nat :| Suffices(answers, from, n, |bytes|, polls);
    if r != Done {
      SufficientAnswers(answers, from, n, calls, |bytes|, polls);
    }
  }

  /**
   * `write_all` over the polls it gets, `errors` being the connection's error at each: the stream
   * has received exactly a prefix of the input, all of it if the call succeeded; and it succeeds if
   * the core comes to take it all within those polls.
   */
  method WriteAll(stream: SendStream, bytes: Bytes, errors: seq<Option<Error>>) returns (r: WriteResult, offset: nat)
    modifies stream`calls, stream`accepted
    ensures offset <= |bytes| && stream.accepted == old(stream.accepted) + bytes[..offset]
    ensures r == Done ==> offset == |bytes|
    ensures NoneIn(errors) && bytes != [] && SufficeFrom(stream.answers, old(stream.calls), |bytes|, |errors|) ==>
              r == Done
    ensures errors != [] && errors[0] == None && (forall c :: Goes(stream.answers(c))) ==> r == Done
    ensures errors != [] && errors[0] != None ==> r == Failed(errors[0].value) && offset == 0
  {
    offset, r := 0, Waiting;
    ghost var base := stream.accepted;
    ghost var from := stream.calls;
    ghost var quiet := true;
    assert base + bytes[..0] == base;
    var i := 0;
    while i < |errors| && r == Waiting
      invariant i <= |errors| && offset <= |bytes| && (i == 0 ==> offset == 0 && r == Waiting)
      invariant stream.accepted == base + bytes[..offset]
      invariant r == Done ==> offset == |bytes|
      invariant !quiet ==> !NoneIn(errors)
      invariant quiet ==> Stands(stream.answers, from, stream.calls, i, bytes, offset, r)
      invariant i > 0 && errors[0] == None && (forall c :: Goes(stream.answers(c))) ==> r == Done
      invariant i > 0 && errors[0] != None ==> r == Failed(errors[0].value) && offset == 0
    {
      ghost var before, was := offset, stream.calls;
      r, offset := WritePoll(stream, bytes, offset, errors[i]);
      assert bytes[..before] + bytes[before..offset] == bytes[..offset];
      if quiet && errors[i] == None {
        OnePollOn(stream.answers, from, was, i, bytes, before, stream.calls, offset, r);
      } else {
        quiet := false;
      }
      i := i + 1;
    }
    if quiet && r != Done && bytes != [] && SufficeFrom(stream.answers, from, |bytes|, |errors|) {
      EndsInDone(stream.answers, from, stream.calls, bytes, offset, r, |errors|);
    }
  }

  predicate NoneIn(errors: seq<Option<Error>>) {
    forall k :: 0 <= k < |errors| ==> errors[k] == None
  }

  /** From call `from` on, the answers come to take `size` bytes within `polls` polls. */
  ghost predicate SufficeFrom(answers: nat -> Answer, from: nat, size: nat, polls: nat) {
    exists n: nat :: Suffices(answers, from, n, size, polls)
  }

  function Concat(chunks: seq<Bytes>): Bytes {
    if chunks == [] then [] else Concat(chunks[..|chunks| - 1]) + chunks[|chunks| - 1]
  }

  lemma {:induction false} ConcatPrefix(chunks: seq<Bytes>, k: nat, n: nat)
    requires k < |chunks| && n <= |chunks[k]|
    ensures Concat(chunks[..k]) + chunks[k][..n] <= Concat(chunks)
    decreases |chunks|
  {
    var front := chunks[..|chunks| - 1];
    if k < |chunks| - 1 {
      ConcatPrefix(front, k, n);
      assert front[..k] == chunks[..k];
    } else {
      assert front == chunks[..k];
    }
  }

  /**
   * `write_via_stream`: the chunks go out in order and in full before the stream is finished; on a
   * failure or while waiting, what went out is a prefix of their concatenation. `finishError` is
   * what `finish` fails with, if it does.
   */
  method WriteViaStream(stream: SendStream, chunks: seq<Bytes>, errors: seq<seq<Option<Error>>>,
                        finishError: Option<Error>)
    returns (r: WriteResult)
    requires |errors| == |chunks| && !stream.finished
    modifies stream
    ensures r == Done <==> stream.finished
    ensures r == Done ==> stream.accepted == old(stream.accepted) + Concat(chunks)
    ensures exists n :: 0 <= n <= |Concat(chunks)| && stream.accepted == old(stream.accepted) + Concat(chunks)[..n]
    ensures finishError == None && (forall c :: Goes(stream.answers(c))) ==>
              (forall i :: 0 <= i < |chunks| ==> errors[i] != [] && errors[i][0] == None) ==> r == Done
  {
    ghost var base := stream.accepted;
    var i := 0;
    assert chunks[..0] == [] && base + [] == base;
    while i < |chunks|
      invariant i <= |chunks| && !stream.finished
      invariant stream.accepted == base + Concat(chunks[..i])
    {
      assert chunks[..i + 1][..i] == chunks[..i];
      if chunks[i] != [] {
        var offset;
        r, offset := WriteAll(stream, chunks[i], errors[i]);
        ConcatPrefix(chunks, i, offset);
        if r != Done {
          ghost var out := Concat(chunks[..i]) + chunks[i][..offset];
          assert stream.accepted == base + out && out == Concat(chunks)[..|out|];
          return;
        }
        assert chunks[i][..offset] == chunks[i];
        assert stream.accepted == base + (Concat(chunks[..i]) + chunks[i]);
      } else {
        assert Concat(chunks[..i + 1]) == Concat(chunks[..i]);
      }
      i := i + 1;
    }
    assert chunks[..i] == chunks;
    assert Concat(chunks) == Concat(chunks)[..|Concat(chunks)|];
    if finishError.Some? {
      return Failed(finishError.value);
    }
    stream.finished := true;
    r := Done;
  }
}
