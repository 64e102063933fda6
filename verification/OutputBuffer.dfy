/** The buffered UI (internal/ui/ui.go): two stream buffers and one that sees both. */
module OutputBuffer {

  /** strings.Join(chunks, "\n") */
  function Lines(chunks: seq<string>): string {
    if chunks == [] then "" else if |chunks| == 1 then chunks[0] else chunks[0] + "\n" + Lines(chunks[1..])
  }

  function NonEmpty(chunks: seq<string>): seq<string> {
    if chunks == [] then []
    else (if chunks[0] == "" then [] else [chunks[0]]) + NonEmpty(chunks[1..])
  }

  /** The non-empty chunks in order, one newline between each two. */
  function Joined(chunks: seq<string>): string {
    Lines(NonEmpty(chunks))
  }

  /** What one Append writes to a stream that already holds `buf`. */
  function Piece(buf: string, chunk: string): string {
    if chunk == "" then "" else if buf == "" then chunk else "\n" + chunk
  }

  lemma {:induction false} NonEmptySnoc(chunks: seq<string>, chunk: string)
    ensures NonEmpty(chunks + [chunk]) == NonEmpty(chunks) + (if chunk == "" then [] else [chunk])
  {
    if chunks == [] {
      assert [chunk][1..] == [];
    } else {
      assert (chunks + [chunk])[1..] == chunks[1..] + [chunk];
      NonEmptySnoc(chunks[1..], chunk);
    }
  }

  lemma {:induction false} LinesSnoc(chunks: seq<string>, chunk: string)
    requires chunks != []
    ensures Lines(chunks + [chunk]) == Lines(chunks) + "\n" + chunk
  {
    assert (chunks + [chunk])[1..] == chunks[1..] + [chunk];
    if |chunks| > 1 {
      LinesSnoc(chunks[1..], chunk);
    } else {
      assert Lines(chunks[1..] + [chunk]) == chunk;
    }
  }

  lemma {:induction false} JoinedEmpty(chunks: seq<string>)
    ensures Joined(chunks) == "" <==> NonEmpty(chunks) == []
    ensures NonEmpty(chunks) != [] ==> NonEmpty(chunks)[0] != ""
  {
    if chunks != [] {
      JoinedEmpty(chunks[1..]);
    }
  }

  /** Appending a chunk to a buffer that holds joined chunks gives the joined longer sequence. */
  lemma JoinedSnoc(chunks: seq<string>, chunk: string)
    ensures Joined([]) == "" && Joined(chunks + [chunk]) == Joined(chunks) + Piece(Joined(chunks), chunk)
    ensures Joined(chunks + [chunk]) ==
            if chunk == "" then Joined(chunks)
            else if Joined(chunks) == "" then chunk
            else Joined(chunks) + "\n" + chunk
  {
    NonEmptySnoc(chunks, chunk);
    JoinedEmpty(chunks);
    if chunk != "" && NonEmpty(chunks) != [] {
      LinesSnoc(NonEmpty(chunks), chunk);
    } else if chunk == "" {
      assert NonEmpty(chunks) + [] == NonEmpty(chunks);
    }
  }

  datatype Entry = Entry(toStdout: bool, text: string)

  function Only(log: seq<Entry>, toStdout: bool): string {
    if log == [] then ""
    else Only(log[..|log| - 1], toStdout) + (if log[|log| - 1].toStdout == toStdout then log[|log| - 1].text else "")
  }

  function Both(log: seq<Entry>): string {
    if log == [] then "" else Both(log[..|log| - 1]) + log[|log| - 1].text
  }

  class Buffered {
    var stdoutBuf: string
    var stderrBuf: string
    var combinedBuf: string
    ghost var outs: seq<string>  // the chunks appended so far, empty ones included
    ghost var errs: seq<string>
    ghost var log: seq<Entry>    // the writes in order

    /** The combined buffer is a merge of the two streams: nothing is lost, nothing is added. */
    ghost predicate Merged()
      reads this
    {
      && stdoutBuf == Only(log, true) && stderrBuf == Only(log, false) && combinedBuf == Both(log)
    }

    ghost predicate Valid()
      reads this
    {
      Merged() && stdoutBuf == Joined(outs) && stderrBuf == Joined(errs)
    }

    constructor ()
      ensures Valid() && outs == errs == []
    {
      stdoutBuf, stderrBuf, combinedBuf := "", "", "";
      outs, errs, log := [], [], [];
    }

    /** One Write to a stream goes to its own buffer and to the combined one. */
    method Put(toStdout: bool, text: string)
      requires Merged()
      modifies this
      ensures Merged() && log == old(log) + [Entry(toStdout, text)]
      ensures stdoutBuf == if toStdout then old(stdoutBuf) + text else old(stdoutBuf)
      ensures stderrBuf == if toStdout then old(stderrBuf) else old(stderrBuf) + text
      ensures combinedBuf == old(combinedBuf) + text
      ensures outs == old(outs) && errs == old(errs)
    {
      if toStdout { stdoutBuf := stdoutBuf + text; } else { stderrBuf := stderrBuf + text; }
      combinedBuf := combinedBuf + text;
      log := log + [Entry(toStdout, text)];
      assert log[..|log| - 1] == old(log);
    }

    /** One half of Append: a newline first if the stream has bytes, then the chunk. */
    method AppendTo(toStdout: bool, chunk: string)
      requires Merged()
      modifies this
      ensures Merged() && outs == old(outs) && errs == old(errs)
      ensures stdoutBuf == if toStdout then old(stdoutBuf) + Piece(old(stdoutBuf), chunk) else old(stdoutBuf)
      ensures stderrBuf == if toStdout then old(stderrBuf) else old(stderrBuf) + Piece(old(stderrBuf), chunk)
      ensures combinedBuf == old(combinedBuf) + Piece(if toStdout then old(stdoutBuf) else old(stderrBuf), chunk)
    {
      hide Merged;
      if chunk != "" {
        ghost var out, err, both := stdoutBuf, stderrBuf, combinedBuf;
        if (if toStdout then stdoutBuf else stderrBuf) != "" {
          Put(toStdout, "\n");
          assert out + "\n" + chunk == out + ("\n" + chunk);
          assert err + "\n" + chunk == err + ("\n" + chunk);
          assert both + "\n" + chunk == both + ("\n" + chunk);
        }
        Put(toStdout, chunk);
      }
    }

    method Append(stdout: string, stderr: string)
      requires Valid()
      modifies this
      ensures Valid() && outs == old(outs) + [stdout] && errs == old(errs) + [stderr]
      ensures combinedBuf == old(combinedBuf) + Piece(old(stdoutBuf), stdout) + Piece(old(stderrBuf), stderr)
    {
      hide Joined, Piece, Only, Both;
      AppendTo(true, stdout);
      AppendTo(false, stderr);
      JoinedSnoc(outs, stdout);
      JoinedSnoc(errs, stderr);
      outs, errs := outs + [stdout], errs + [stderr];
    }
  }

  /** Any sequence of appends: each stream holds its joined chunks, and nothing else is written. */
  method AppendAll(b: Buffered, outs: seq<string>, errs: seq<string>)
    requires b.Valid() && b.outs == b.errs == [] && |outs| == |errs|
    modifies b
    ensures b.Valid() && b.stdoutBuf == Joined(outs) && b.stderrBuf == Joined(errs)
    ensures |b.combinedBuf| == |Joined(outs)| + |Joined(errs)|
  {
    for i := 0 to |outs|
      invariant b.Valid() && b.outs == outs[..i] && b.errs == errs[..i]
    {
      b.Append(outs[i], errs[i]);
    }
    assert outs[..|outs|] == outs && errs[..|outs|] == errs;
    MergeLength(b.log);
  }

  lemma {:induction false} MergeLength(log: seq<Entry>)
    ensures |Both(log)| == |Only(log, true)| + |Only(log, false)|
  {
    if log != [] {
      MergeLength(log[..|log| - 1]);
    }
  }
}
