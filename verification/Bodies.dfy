// A request or response body: the reader behind a ReadableStream, and the three
// that take bytes from it.
module Bodies {
  import opened Base

  type byte = x: int | 0 <= x < 256 witness 0

  // pull() hands bytes to the script, AssertReader's caller copies them to the wire,
  // and Reset throws them away.
  datatype Consumer = Puller | Copier | Drainer
  datatype Run = Run(taker: Consumer, bytes: seq<byte>)

  function Flat(log: seq<Run>): seq<byte> {
    if log == [] then [] else Flat(log[..|log| - 1]) + log[|log| - 1].bytes
  }

  function BytesOf(log: seq<Run>, who: Consumer): seq<byte> {
    if log == [] then []
    else BytesOf(log[..|log| - 1], who) + (if log[|log| - 1].taker == who then log[|log| - 1].bytes else [])
  }

  // Pulls first, then copies, then the drain.
  function Turn(c: Consumer): nat { match c case Puller => 0 case Copier => 1 case Drainer => 2 }

  predicate InTurn(log: seq<Run>) { forall i, j :: 0 <= i < j < |log| ==> Turn(log[i].taker) <= Turn(log[j].taker) }

  // Taken in turn, what the three got makes up what was taken.
  lemma {:induction false} TakenInTurn(log: seq<Run>)
    requires InTurn(log)
    ensures Flat(log) == BytesOf(log, Puller) + BytesOf(log, Copier) + BytesOf(log, Drainer)
  {
    if log != [] {
      var p, last := log[..|log| - 1], log[|log| - 1];
      TakenInTurn(p);
      if last.taker.Puller? { NothingOf(p, Copier); NothingOf(p, Drainer); }
      if last.taker.Copier? { NothingOf(p, Drainer); }
      assert BytesOf(p, Puller) + BytesOf(p, Copier) + BytesOf(p, Drainer) + last.bytes
          == BytesOf(log, Puller) + BytesOf(log, Copier) + BytesOf(log, Drainer);
    }
  }

  lemma {:induction false} NothingOf(log: seq<Run>, who: Consumer)
    requires forall i :: 0 <= i < |log| ==> log[i].taker != who
    ensures BytesOf(log, who) == []
  {
    if log != [] { NothingOf(log[..|log| - 1], who); }
  }

  // An io.ReadCloser without errors.  It gives what it has in chunks of its own
  // choosing; it may stall, that is return (0, nil), `stalls` times in all; it
  // reports io.EOF with the last bytes or after them.
  class Reader {
    var rest: seq<byte>
    var stalls: nat
    var closed: bool

    constructor (content: seq<byte>, s: nat)
      ensures rest == content && stalls == s && !closed
    {
      rest, stalls, closed := content, s, false;
    }

    // Left to do before io.EOF.
    ghost function Effort(): nat
      reads this
    {
      |rest| + stalls
    }

    method Read(buf: array<byte>, lo: nat, hi: nat) returns (n: nat, eof: bool)
      requires lo <= hi <= buf.Length
      modifies `rest, `stalls, buf
      ensures n <= hi - lo && n <= |old(rest)|
      ensures rest == old(rest)[n..] && buf[lo..lo + n] == old(rest)[..n]
      ensures buf[..lo] == old(buf[..lo]) && buf[lo + n..] == old(buf[lo + n..])
      ensures eof ==> rest == []
      ensures lo < hi && old(rest) == [] ==> eof || stalls < old(stalls)
      ensures lo < hi && n == 0 && old(rest) != [] ==> stalls < old(stalls)
      ensures stalls <= old(stalls)
    {
      var stall: bool := *;
      if stall && stalls > 0 {
        stalls := stalls - 1;
        return 0, false;
      }
      if rest == [] { return 0, lo < hi; }
      var most := if hi - lo < |rest| then hi - lo else |rest|;
      n :| n <= most && (n > 0 || most == 0);
      forall i | 0 <= i < n { buf[lo + i] := rest[i]; }
      rest := rest[n..];
      eof := *;
      eof := eof && rest == [];
    }

    method Close()
      modifies `closed
      ensures closed
    {
      closed := true;
    }
  }

  datatype Pulled = Delivered(n: nat) | Panicked

  // NativeReaderWrapper, with the stream that wraps it; `log` is what was taken from
  // the reader since WithReader, and `content` what it had then.
  class NativeReaderWrapper {
    var reader: Reader?
    var streamClosed: bool
    ghost var content: seq<byte>
    ghost var log: seq<Run>

    constructor ()
      ensures reader == null
    {
      reader, streamClosed, content, log := null, false, [], [];
    }

    // No byte is lost or made up: what was taken, in the order it was taken, and
    // what is left are the content.
    ghost predicate Conserved()
      reads this, reader
    {
      reader != null && Flat(log) + reader.rest == content
    }

    method WithReader(r: Reader)
      modifies this
      ensures reader == r && content == r.rest && log == [] && !streamClosed && Conserved()
    {
      reader, streamClosed, content, log := r, false, r.rest, [];
      assert [] + r.rest == r.rest;
    }

    // readInto: the slice of the buffer runs from offset to length.
    method ReadInto(buffer: array<byte>, offset: nat, length: nat) returns (r: Pulled)
      requires reader != null
      modifies reader`rest, reader`stalls, buffer
      ensures r.Panicked? <==> !(offset <= length <= buffer.Length)
      ensures r.Panicked? ==> reader.rest == old(reader.rest)
      ensures r.Delivered? ==>
        && r.n <= length - offset && r.n <= |old(reader.rest)|
        && buffer[offset..offset + r.n] == old(reader.rest)[..r.n] && reader.rest == old(reader.rest)[r.n..]
        && (offset < length && r.n == 0 && old(reader.rest) != [] ==> reader.stalls < old(reader.stalls))
        && reader.stalls <= old(reader.stalls)
    {
      if !(offset <= length <= buffer.Length) { return Panicked; }
      var n, _ := reader.Read(buffer, offset, length);
      return Delivered(n);
    }

    // pull: the controller is closed on a read of 0, and then told how many bytes of
    // its view, from the view's offset on, have been filled.
    method Pull(buffer: array<byte>, offset: nat, length: nat) returns (got: seq<byte>, panicked: bool)
      requires Conserved() && !streamClosed
      modifies this, reader`rest, reader`stalls, buffer
      ensures reader == old(reader) && content == old(content) && Conserved()
      ensures panicked <==> !(offset <= length <= buffer.Length)
      ensures panicked ==> log == old(log) && !streamClosed
      ensures !panicked ==> log == old(log) + [Run(Puller, got)] && old(reader.rest) == got + reader.rest
      ensures !panicked ==> (streamClosed <==> got == [])
      ensures old(reader.stalls) == 0 && !panicked ==>
        (streamClosed <==> offset == length || old(reader.rest) == [])
    {
      got, panicked := [], false;
      var r := ReadInto(buffer, offset, length);
      match r {
        case Panicked => panicked := true;
        case Delivered(read) =>
          if read == 0 { streamClosed := true; }
          got := buffer[offset..offset + read];
          Took(Puller, got);
      }
    }

    ghost method Took(who: Consumer, bytes: seq<byte>)
      requires reader != null && Flat(log) + bytes + reader.rest == content
      modifies `log
      ensures log == old(log) + [Run(who, bytes)] && Conserved()
    {
      var was := log;
      log := log + [Run(who, bytes)];
      assert log[..|log| - 1] == was;
    }

    // AssertReader's caller, or Reset: io.CopyBuffer until io.EOF.
    method CopyBuffer(ghost who: Consumer, buf: array<byte>) returns (copied: seq<byte>)
      requires Conserved() && buf.Length > 0
      modifies `log, reader`rest, reader`stalls, buf
      ensures Conserved() && reader.rest == []
      ensures copied == old(reader.rest)
      ensures |log| >= |old(log)| && log[..|old(log)|] == old(log)
      ensures forall i :: |old(log)| <= i < |log| ==> log[i].taker == who
      ensures content == Flat(old(log)) + copied
    {
      var r := reader;
      copied := [];
      var eof := false;
      while !eof
        invariant reader == r == old(reader) && content == old(content) && Conserved()
        invariant old(reader.rest) == copied + r.rest
        invariant eof ==> r.rest == []
        invariant |log| >= |old(log)| && log[..|old(log)|] == old(log)
        invariant forall i :: |old(log)| <= i < |log| ==> log[i].taker == who
        decreases !eof, r.Effort()
      {
        var n;
        n, eof := r.Read(buf, 0, buf.Length);
        copied := copied + buf[..n];
        assert buf[0..n] == buf[..n];
        Took(who, buf[..n]);
      }
    }

    method Reset(buf: array<byte>)
      requires Conserved() && buf.Length > 0
      modifies this, reader, buf
      ensures reader == null && old(reader).closed && old(reader).rest == []
      ensures content == old(content) && Flat(log) == content
      ensures |log| >= |old(log)| && log[..|old(log)|] == old(log)
      ensures forall i :: |old(log)| <= i < |log| ==> log[i].taker == Drainer
    {
      var _ := CopyBuffer(Drainer, buf);
      assert Flat(log) + [] == Flat(log);
      reader.Close();
      reader := null;
    }

    // Pulls into views of any size, until the stream is closed.
    method PullAll(views: seq<(nat, nat)>) returns (pulled: seq<byte>)
      requires Conserved() && !streamClosed && log == []
      modifies this, reader`rest, reader`stalls
      ensures reader == old(reader) && content == old(content) && Conserved()
      ensures pulled == BytesOf(log, Puller) && forall k :: 0 <= k < |log| ==> log[k].taker == Puller
    {
      pulled := [];
      var i := 0;
      while i < |views| && !streamClosed
        invariant i <= |views| && reader == old(reader) && content == old(content) && Conserved()
        invariant forall k :: 0 <= k < |log| ==> log[k].taker == Puller
        invariant pulled == BytesOf(log, Puller)
      {
        var view := new byte[views[i].1];
        ghost var was := log;
        var got, panicked := Pull(view, views[i].0, views[i].1);
        if !panicked {
          assert log[..|log| - 1] == was;
          pulled := pulled + got;
        }
        i := i + 1;
      }
    }

    // A body's whole life, from WithReader on: pulls, then perhaps a copy to the wire, then the reset.
    // What the script pulled, what was copied and what was thrown away are the
    // content; and a copy leaves nothing to throw away.
    method Live(r: Reader, views: seq<(nat, nat)>, copy: bool, buf: array<byte>)
        returns (pulled: seq<byte>, copied: seq<byte>)
      requires buf.Length > 0
      modifies this, r, buf
      ensures reader == null && r.closed && r.rest == []
      ensures old(r.rest) == pulled + copied + BytesOf(log, Drainer)
      ensures copy ==> BytesOf(log, Drainer) == []
    {
      WithReader(r);
      pulled := PullAll(views);
      copied := [];
      ghost var one := log;
      if copy { copied := CopyBuffer(Copier, buf); }
      ghost var two := log;
      assert copy ==> Flat(two) + [] == Flat(two) == content;
      Reset(buf);
      ThreeTurns(one, two, log, copied);
      if copy {
        assert Flat(two) == pulled + copied;
        assert (pulled + copied + BytesOf(log, Drainer))[|pulled + copied|..] == BytesOf(log, Drainer);
        assert (pulled + copied)[|pulled + copied|..] == [];
      }
    }
  }

  // Pulls, then a copy of `copied`, then a drain.
  lemma ThreeTurns(one: seq<Run>, two: seq<Run>, log: seq<Run>, copied: seq<byte>)
    requires one <= two <= log && Flat(two) == Flat(one) + copied
    requires forall i :: 0 <= i < |one| ==> one[i].taker == Puller
    requires forall i :: |one| <= i < |two| ==> two[i].taker == Copier
    requires forall i :: |two| <= i < |log| ==> log[i].taker == Drainer
    ensures Flat(two) == BytesOf(one, Puller) + copied
    ensures Flat(log) == BytesOf(one, Puller) + copied + BytesOf(log, Drainer)
  {
    TakenInTurn(two);
    CopiedAll(one, two, copied);
    NothingOf(two, Drainer);
    AppendedOf(two, log, Puller);
    AppendedOf(two, log, Copier);
    TakenInTurn(log);
  }

  // What comes later from others changes nothing.
  lemma {:induction false} AppendedOf(was: seq<Run>, log: seq<Run>, who: Consumer)
    requires was <= log && forall i :: |was| <= i < |log| ==> log[i].taker != who
    ensures BytesOf(log, who) == BytesOf(was, who)
  {
    if |log| > |was| {
      AppendedOf(was, log[..|log| - 1], who);
    } else {
      assert log == was;
    }
  }

  // After pulls alone, a copy takes what the copier is then found to have.
  lemma CopiedAll(was: seq<Run>, log: seq<Run>, copied: seq<byte>)
    requires was <= log && InTurn(log) && Flat(log) == Flat(was) + copied
    requires forall i :: 0 <= i < |was| ==> was[i].taker == Puller
    requires forall i :: |was| <= i < |log| ==> log[i].taker == Copier
    ensures BytesOf(log, Puller) == BytesOf(was, Puller) && BytesOf(log, Copier) == copied
  {
    TakenInTurn(was);
    NothingOf(was, Copier);
    NothingOf(was, Drainer);
    TakenInTurn(log);
    NothingOf(log, Drainer);
    AppendedOf(was, log, Puller);
    var p := BytesOf(was, Puller);
    assert Flat(was) == p && Flat(log) == p + BytesOf(log, Copier);
    assert (p + copied)[|p|..] == copied && (p + BytesOf(log, Copier))[|p|..] == BytesOf(log, Copier);
  }
}
