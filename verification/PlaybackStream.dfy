/**
 The write callback of a playback stream: it copies the sound file to the stream in chunks of at most
 one buffer, and asks for the drain when there is no more to copy.
 */
module PlaybackStream {

  type Byte = bv8

  /** sizeof(priv->buffer). */
  const BUFFER_SIZE: nat := 65536

  /**
   The file and the two calls the loop cannot see into: the k-th read may return fewer bytes than
   asked for, or none, and the k-th write may fail.
   */
  datatype World = World(data: seq<Byte>, gives: nat -> nat, takes: nat -> bool)

  datatype Copy = Copy(
    pos: nat,             // read position in the file
    accepted: seq<Byte>,  // what the stream took
    calls: nat,           // reads so far
    writing: bool,        // the write callback is installed
    drains: nat)          // drains asked for

  const FRESH := Copy(0, [], 0, true, 0)

  function Min(a: nat, b: nat): (m: nat)
    ensures m <= a && m <= b && (m == a || m == b)
  {
    if a < b then a else b
  }

  /** What the next read returns when asked for n bytes. */
  function Next(w: World, c: Copy, n: nat): seq<Byte>
    requires c.pos <= |w.data|
  {
    w.data[c.pos..c.pos + Min(Min(n, w.gives(c.calls)), |w.data| - c.pos)]
  }

  /** The callback is taken off and the drain requested. */
  function Finished(c: Copy): Copy {
    c.(writing := false, drains := c.drains + 1)
  }

  /** The loop with left bytes to go. */
  function Feed(w: World, c: Copy, left: nat): (r: Copy)
    requires c.pos <= |w.data|
    ensures r.pos <= |w.data|
    decreases left
  {
    if left == 0 then c
    else
      var chunk := Next(w, c, Min(left, BUFFER_SIZE));
      var read := c.(pos := c.pos + |chunk|, calls := c.calls + 1);
      if chunk == [] || !w.takes(c.calls) then Finished(read)
      else Feed(w, read.(accepted := c.accepted + chunk), left - |chunk|)
  }

  /** One turn of the loop. */
  lemma FeedOnce(w: World, c: Copy, left: nat)
    requires c.pos <= |w.data| && left > 0
    ensures var chunk := Next(w, c, Min(left, BUFFER_SIZE));
            var read := c.(pos := c.pos + |chunk|, calls := c.calls + 1);
            && |chunk| <= left && read.pos <= |w.data|
            && Feed(w, c, left) == if chunk == [] || !w.takes(c.calls) then Finished(read)
                                   else Feed(w, read.(accepted := c.accepted + chunk), left - |chunk|)
  {
  }

  /** A sequence of callbacks, each with the size it asks for; without a callback nothing is copied. */
  function Callbacks(w: World, sizes: seq<nat>): (r: Copy)
    ensures r.pos <= |w.data|
  {
    if sizes == [] then FRESH
    else
      var c := Callbacks(w, sizes[..|sizes| - 1]);
      if c.writing then Feed(w, c, sizes[|sizes| - 1]) else c
  }

  /** The bytes accepted are those of the file, in order; the drain is asked for exactly at the end. */
  ghost predicate Faithful(w: World, c: Copy) {
    && c.pos <= |w.data|
    && c.accepted <= w.data
    && (c.writing ==> |c.accepted| == c.pos)
    && c.drains == if c.writing then 0 else 1
  }

  /** Every read returns something until the file is at its end, and no write fails. */
  ghost predicate Clean(w: World) {
    forall k: nat :: w.gives(k) > 0 && w.takes(k)
  }

  lemma ChunkIsFaithful(w: World, c: Copy, n: nat)
    requires Faithful(w, c) && c.writing
    ensures var chunk := Next(w, c, n);
            && |chunk| <= n
            && (Clean(w) && n > 0 && chunk == [] ==> c.accepted == w.data)
            && Faithful(w, c.(pos := c.pos + |chunk|, calls := c.calls + 1, accepted := c.accepted + chunk))
  {
    var chunk := Next(w, c, n);
    assert c.accepted + chunk == w.data[..c.pos + |chunk|];
    assert Clean(w) ==> w.gives(c.calls) > 0;
  }

  lemma {:induction false} FeedIsFaithful(w: World, c: Copy, left: nat)
    requires Faithful(w, c) && c.writing
    ensures var r := Feed(w, c, left);
            && Faithful(w, r)
            && c.accepted <= r.accepted
            && |r.accepted| - |c.accepted| <= left
            && (r.writing ==> |r.accepted| - |c.accepted| == left)
            && (Clean(w) && !r.writing ==> r.accepted == w.data)
    decreases left
  {
    if left > 0 {
      var chunk := Next(w, c, Min(left, BUFFER_SIZE));
      ChunkIsFaithful(w, c, Min(left, BUFFER_SIZE));
      if chunk != [] && w.takes(c.calls) {
        FeedIsFaithful(w, c.(pos := c.pos + |chunk|, calls := c.calls + 1, accepted := c.accepted + chunk), left - |chunk|);
      }
    }
  }

  /**
   After any callbacks of any sizes, with any short reads, the stream has accepted a prefix of the file,
   and all of it when the copying ended without an error. The drain is requested once, when the copying
   ends, and nothing is written after it.
   */
  lemma {:induction false} AcceptedIsAPrefix(w: World, sizes: seq<nat>)
    ensures var c := Callbacks(w, sizes);
            && c.accepted <= w.data
            && c.drains == (if c.writing then 0 else 1)
            && (Clean(w) && !c.writing ==> c.accepted == w.data)
            && Faithful(w, c)
  {
    if sizes != [] {
      var before := sizes[..|sizes| - 1];
      AcceptedIsAPrefix(w, before);
      if Callbacks(w, before).writing {
        FeedIsFaithful(w, Callbacks(w, before), sizes[|sizes| - 1]);
      }
    }
  }

  /** While the copying goes on, every callback got exactly what it asked for. */
  lemma {:induction false} NothingIsOwed(w: World, sizes: seq<nat>)
    requires Callbacks(w, sizes).writing
    ensures |Callbacks(w, sizes).accepted| == Sum(sizes)
  {
    if sizes != [] {
      var before := sizes[..|sizes| - 1];
      NothingIsOwed(w, before);
      AcceptedIsAPrefix(w, before);
      FeedIsFaithful(w, Callbacks(w, before), sizes[|sizes| - 1]);
    }
  }

  function Sum(sizes: seq<nat>): nat {
    if sizes == [] then 0 else Sum(sizes[..|sizes| - 1]) + sizes[|sizes| - 1]
  }

  /** A clean copy of a finite file comes to its end once more has been asked for than there is. */
  lemma CleanCopiesEnd(w: World, sizes: seq<nat>)
    requires Clean(w) && Sum(sizes) > |w.data|
    ensures !Callbacks(w, sizes).writing && Callbacks(w, sizes).accepted == w.data
  {
    AcceptedIsAPrefix(w, sizes);
    if Callbacks(w, sizes).writing {
      NothingIsOwed(w, sizes);
    }
  }

  class StreamWriter {
    const world: World
    var pos: nat
    var accepted: seq<Byte>
    var calls: nat
    var writing: bool
    var drains: nat
    /** The sizes of the callbacks so far. */
    ghost var sizes: seq<nat>

    constructor (world: World)
      ensures this.world == world && Valid() && sizes == []
    {
      this.world := world;
      pos, accepted, calls, writing, drains := 0, [], 0, true, 0;
      sizes := [];
    }

    ghost predicate Valid()
      reads this
    {
      Contents() == Callbacks(world, sizes)
    }

    /** What the stream has taken, at any time, and all of it after a clean end. */
    lemma TakesAPrefix()
      requires Valid()
      ensures accepted <= world.data && drains == if writing then 0 else 1
      ensures Clean(world) && !writing ==> accepted == world.data
      ensures writing ==> |accepted| == Sum(sizes)
    {
      AcceptedIsAPrefix(world, sizes);
      if writing {
        NothingIsOwed(world, sizes);
      }
    }

    function Contents(): Copy
      reads this
    {
      Copy(pos, accepted, calls, writing, drains)
    }

    /** fread or sf_read_raw. */
    method Read(n: nat) returns (chunk: seq<Byte>)
      requires pos <= |world.data|
      modifies `pos, `calls
      ensures chunk == Next(world, old(Contents()), n)
      ensures Contents() == old(Contents()).(pos := old(pos) + |chunk|, calls := old(calls) + 1)
    {
      chunk := world.data[pos..pos + Min(Min(n, world.gives(calls)), |world.data| - pos)];
      pos := pos + |chunk|;
      calls := calls + 1;
    }

    /** pa_stream_write. */
    method Write(chunk: seq<Byte>, call: nat) returns (ok: bool)
      modifies `accepted
      ensures ok == world.takes(call)
      ensures Contents() == if ok then old(Contents()).(accepted := old(accepted) + chunk) else old(Contents())
    {
      ok := world.takes(call);
      if ok {
        accepted := accepted + chunk;
      }
    }

    method Finish()
      modifies `writing, `drains
      ensures Contents() == Finished(old(Contents()))
    {
      writing := false;
      drains := drains + 1;
    }

    /** One turn of the loop: the bytes still to go, or the end of the copying. */
    method CopyChunk(left: nat) returns (more: bool, rest: nat)
      requires left > 0 && pos <= |world.data|
      modifies `pos, `accepted, `calls, `writing, `drains
      ensures pos <= |world.data|
      ensures more ==> rest < left && Feed(world, Contents(), rest) == Feed(world, old(Contents()), left)
      ensures !more ==> Contents() == Feed(world, old(Contents()), left)
    {
      hide Next, Feed;
      FeedOnce(world, Contents(), left);
      var call := calls;
      var chunk := Read(Min(left, BUFFER_SIZE));
      if chunk == [] {
        Finish();
        return false, left;
      }
      var ok := Write(chunk, call);
      if !ok {
        Finish();
        return false, left;
      }
      return true, left - |chunk|;
    }

    /** The loop of the callback. */
    method CopyAll(nbytes: nat)
      requires pos <= |world.data|
      modifies `pos, `accepted, `calls, `writing, `drains
      ensures Contents() == Feed(world, old(Contents()), nbytes)
    {
      var more, left := true, nbytes;
      while more && left > 0
        invariant pos <= |world.data|
        invariant (if more then Feed(world, Contents(), left) else Contents()) == Feed(world, old(Contents()), nbytes)
        decreases more, left
      {
        more, left := CopyChunk(left);
      }
    }

    /** The callback, while it is installed; a size of 0 asks for nothing. */
    method OnWrite(nbytes: nat)
      requires Valid() && writing
      modifies this
      ensures Valid() && sizes == old(sizes) + [nbytes]
    {
      assert (sizes + [nbytes])[..|sizes|] == sizes;
      sizes := sizes + [nbytes];
      if nbytes > 0 {
        CopyAll(nbytes);
      }
    }
  }
}
