/** The byte path of a backup: buffering writers, a key-value backend and chunked readers. */
module Backup {
  import opened Text
  import opened Encryption

  // ----- Compression and storage -------------------------------------------------------------------------

  /** A decompressor refuses a bad header at once and other corruption when its reader gets there. */
  datatype Decompressed = BadHeader | Stream(data: Bytes, corrupt: bool)

  datatype Compressor = Compressor(compress: Bytes -> Option<Bytes>, decompress: Bytes -> Decompressed)

  /** What compresses decompresses to the same bytes. */
  ghost predicate Lossless(k: Compressor) {
    forall x: Bytes :: k.compress(x).Some? ==> k.decompress(k.compress(x).value) == Stream(x, false)
  }

  class Backend {
    var store: map<string, Bytes>

    constructor ()
      ensures store == map[]
    {
      store := map[];
    }

    /** A write that fails may leave anything or nothing under its own key. */
    method Write(path: string, data: Bytes, failure: Option<Option<Bytes>>) returns (ok: bool)
      modifies this
      ensures ok == failure.None?
      ensures ok ==> store == old(store)[path := data]
      ensures store - {path} == old(store) - {path}
    {
      match failure
      case None =>
        store := store[path := data];
        ok := true;
      case Some(None) =>
        store := store - {path};
        ok := false;
      case Some(Some(debris)) =>
        store := store[path := debris];
        ok := false;
    }
  }

  // ----- Writing ---------------------------------------------------------------------------------------------

  class BackupWriter {
    const backend: Backend
    const compressor: Compressor
    const encryptor: Encryptor
    const path: string
    var buffer: Bytes

    constructor (backend: Backend, compressor: Compressor, encryptor: Encryptor, path: string)
      ensures this.backend == backend && this.compressor == compressor
      ensures this.encryptor == encryptor && this.path == path
      ensures buffer == []
    {
      this.backend, this.compressor, this.encryptor, this.path, buffer := backend, compressor, encryptor, path, [];
    }

    method Write(p: Bytes) returns (n: nat)
      modifies this
      ensures buffer == old(buffer) + p && n == |p|
    {
      buffer := buffer + p;
      n := |p|;
    }

    /** Compresses, encrypts and stores; a failure touches no other backup. */
    method Close(entropy: Option<Bytes>, failure: Option<Option<Bytes>>) returns (ok: bool)
      requires Sound(encryptor) && (entropy.Some? ==> |entropy.value| == EntropySize(encryptor))
      modifies backend
      ensures backend.store - {path} == old(backend.store) - {path}
      ensures ok <==> Writable(compressor, encryptor, buffer, entropy) && failure.None?
      ensures ok ==> Stored(backend.store, old(backend.store), path, compressor, encryptor, buffer)
    {
      var compressed := compressor.compress(buffer);
      if compressed.None? {
        return false;
      }
      var encrypted := Encrypt(encryptor, compressed.value, entropy);
      if encrypted.None? {
        return false;
      }
      ok := backend.Write(path, encrypted.value, failure);
    }
  }

  /** The data compresses, and there is entropy where encryption needs it. */
  predicate Writable(k: Compressor, e: Encryptor, data: Bytes, entropy: Option<Bytes>) {
    k.compress(data).Some? && (entropy.Some? || e.NoEncryption?)
  }

  /** `after` is `before` with `data`, compressed and encrypted, under `path`. */
  ghost predicate Stored(after: map<string, Bytes>, before: map<string, Bytes>, path: string, k: Compressor,
                         e: Encryptor, data: Bytes)
    requires Sound(e)
  {
    && path in after && after == before[path := after[path]]
    && k.compress(data).Some? && Decrypted(e, after[path]) == k.compress(data)
  }

  /** The end of a pipe that an encrypting writer fills. */
  class Sink {
    var data: Bytes
    var closed: bool

    constructor ()
      ensures data == [] && !closed
    {
      data, closed := [], false;
    }
  }

  /** Buffers everything and encrypts on close; the sink is closed whatever happens. */
  class EncryptingWriter {
    const encryptor: Encryptor
    const underlying: Sink
    var buffer: Bytes

    constructor (underlying: Sink, encryptor: Encryptor)
      ensures this.underlying == underlying && this.encryptor == encryptor && buffer == []
    {
      this.underlying, this.encryptor, buffer := underlying, encryptor, [];
    }

    method Write(p: Bytes) returns (n: nat)
      modifies this
      ensures buffer == old(buffer) + p && n == |p|
    {
      buffer := buffer + p;
      n := |p|;
    }

    /** `partial` is how much of a failing write goes through; `unclosed` says that closing the sink fails. */
    method Close(entropy: Option<Bytes>, partial: Option<nat>, unclosed: bool) returns (ok: bool)
      requires Sound(encryptor) && (entropy.Some? ==> |entropy.value| == EntropySize(encryptor))
      modifies underlying
      ensures underlying.closed && old(underlying.data) <= underlying.data
      ensures ok <==> (entropy.Some? || encryptor.NoEncryption?) && partial.None? && !unclosed
      ensures ok ==> exists ct ::
                underlying.data == old(underlying.data) + ct && Decrypted(encryptor, ct) == Some(buffer)
    {
      var encrypted := Encrypt(encryptor, buffer, entropy);
      if encrypted.None? {
        underlying.closed := true;
        return false;
      }
      if partial.Some? {
        underlying.data := underlying.data + encrypted.value[..Min(partial.value, |encrypted.value|)];
        underlying.closed := true;
        return false;
      }
      underlying.data := underlying.data + encrypted.value;
      underlying.closed := true;
      ok := !unclosed;
    }
  }

  // ----- Reading ---------------------------------------------------------------------------------------------

  datatype ReadError = NoError | Eof | Failed

  function Min(x: nat, y: nat): nat {
    if x <= y then x else y
  }

  /** How many bytes one read into a buffer of `size` delivers. */
  function Span(data: Bytes, offset: nat, size: nat): (n: nat)
    requires offset <= |data|
    ensures n <= size && offset + n <= |data|
  {
    Min(size, |data| - offset)
  }

  /** The concatenated output of successive reads with buffers of the given sizes. */
  function Delivered(data: Bytes, offset: nat, sizes: seq<nat>): Bytes
    requires offset <= |data|
    decreases |sizes|
  {
    if sizes == [] then [] else
      var n := Span(data, offset, sizes[0]);
      data[offset..offset + n] + Delivered(data, offset + n, sizes[1..])
  }

  function Total(sizes: seq<nat>): nat {
    if sizes == [] then 0 else sizes[0] + Total(sizes[1..])
  }

  lemma SliceJoin(data: Bytes, a: nat, b: nat, c: nat)
    requires a <= b <= c <= |data|
    ensures data[a..b] + data[b..c] == data[a..c]
  {}

  /** Where `n` bytes have been read up to, from `offset` on, if `total` are asked for. */
  function ReadEnd(n: nat, offset: nat, total: nat): (end: nat)
    requires offset <= n
    ensures offset <= end <= n
  {
    offset + Min(total, n - offset)
  }

  lemma ReadEndStep(n: nat, offset: nat, size: nat, rest: nat)
    requires offset <= n
    ensures ReadEnd(n, ReadEnd(n, offset, size), rest) == ReadEnd(n, offset, size + rest)
  {}

  lemma DeliveredStep(data: Bytes, offset: nat, sizes: seq<nat>)
    requires offset <= |data| && sizes != []
    ensures var next := ReadEnd(|data|, offset, sizes[0]);
            Delivered(data, offset, sizes) == data[offset..next] + Delivered(data, next, sizes[1..])
  {}

  /** Any sequence of reads delivers a prefix, and all of it once the buffers add up to enough. */
  lemma {:induction false} DeliveredExactly(data: Bytes, offset: nat, sizes: seq<nat>)
    requires offset <= |data|
    ensures Delivered(data, offset, sizes) == data[offset..ReadEnd(|data|, offset, Total(sizes))]
    decreases |sizes|
  {
    if sizes == [] {
    } else {
      var next := ReadEnd(|data|, offset, sizes[0]);
      ReadEndStep(|data|, offset, sizes[0], Total(sizes[1..]));
      SliceJoin(data, offset, next, ReadEnd(|data|, offset, Total(sizes)));
      DeliveredExactly(data, next, sizes[1..]);
      DeliveredStep(data, offset, sizes);
    }
  }

  lemma {:induction false} TotalSnoc(sizes: seq<nat>, size: nat)
    ensures Total(sizes + [size]) == Total(sizes) + size
  {
    if sizes == [] {
    } else {
      assert (sizes + [size])[1..] == sizes[1..] + [size];
      TotalSnoc(sizes[1..], size);
    }
  }

  lemma {:induction false} TotalPrefix(sizes: seq<nat>, i: nat)
    requires i <= |sizes|
    ensures Total(sizes[..i]) <= Total(sizes)
  {
    if i == 0 {
    } else {
      assert sizes[..i][1..] == sizes[1..][..i - 1];
      TotalPrefix(sizes[1..], i - 1);
    }
  }

  /** The last of the reads is made with all `n` bytes delivered. */
  predicate ReadsPast(n: nat, sizes: seq<nat>) {
    sizes != [] && Total(sizes[..|sizes| - 1]) >= n
  }

  /** What is left of a source after reads that failed, each having consumed so many bytes. */
  function Rest(source: Bytes, cuts: seq<nat>): Bytes {
    if cuts == [] then source else Rest(source[Min(cuts[0], |source|)..], cuts[1..])
  }

  lemma {:induction false} RestIsTail(source: Bytes, cuts: seq<nat>)
    ensures Rest(source, cuts) == source[Min(Total(cuts), |source|)..]
    decreases |cuts|
  {
    if cuts == [] {
    } else {
      RestIsTail(source[Min(cuts[0], |source|)..], cuts[1..]);
    }
  }

  /** Decrypts everything on the first read that gets it, then hands it out buffer by buffer. */
  class DecryptingReader {
    const encryptor: Encryptor
    var source: Bytes                // the bytes still to be had from the underlying reader
    var cuts: seq<nat>               // the coming attempts to read it all that fail, and after how many bytes
    var decrypted: Bytes
    var offset: nat
    var initialized: bool

    constructor (source: Bytes, cuts: seq<nat>, encryptor: Encryptor)
      ensures this.source == source && this.cuts == cuts && this.encryptor == encryptor && !initialized && offset == 0
    {
      this.source, this.cuts, this.encryptor, decrypted, offset, initialized := source, cuts, encryptor, [], 0, false;
    }

    ghost predicate Valid() reads this {
      Sound(encryptor) && (if initialized then cuts == [] && offset <= |decrypted| else offset == 0)
    }

    /** The bytes this reader will deliver once reading the source has stopped failing, if any. */
    ghost function Content(): Option<Bytes>
      requires Valid()
      reads this
    {
      if initialized then Some(decrypted) else Decrypted(encryptor, Rest(source, cuts))
    }

    method Read(p: array<bv8>) returns (n: nat, err: ReadError)
      requires Valid()
      modifies this, p
      ensures Valid() && Content() == old(Content())
      ensures cuts == if old(cuts) == [] then [] else old(cuts)[1..]
      ensures old(cuts) != [] || old(Content()).None? ==>
                err == Failed && n == 0 && p[..] == old(p[..]) && offset == old(offset)
      ensures old(cuts) == [] && old(Content()).Some? ==>
                var data := old(Content()).value;
                && old(offset) <= |data| && n == Span(data, old(offset), p.Length) && offset == old(offset) + n
                && p[..n] == data[old(offset)..offset] && p[n..] == old(p[n..])
                && (err == if old(offset) == |data| then Eof else NoError)
    {
      if !initialized {
        if cuts != [] {
          source, cuts := source[Min(cuts[0], |source|)..], cuts[1..];
          return 0, Failed;
        }
        var plain := Decrypt(encryptor, source);
        source := [];
        if plain.None? {
          return 0, Failed;
        }
        decrypted, initialized := plain.value, true;
      }
      if offset >= |decrypted| {
        return 0, Eof;
      }
      n := Span(decrypted, offset, p.Length);
      forall i | 0 <= i < n {
        p[i] := decrypted[offset + i];
      }
      assert p[..n] == decrypted[offset..offset + n];
      offset, err := offset + n, NoError;
    }
  }

  /**
   What a reader still stands for once the source has failed and lost its first bytes: without loss, the
   whole; without encryption, the tail; with CBC the tail too, if the loss ends at a block and leaves two
   blocks, and otherwise nothing. So what follows an error is no prefix and must not be used.
   */
  lemma AfterFailures(e: Encryptor, entropy: Bytes, p: Bytes, cuts: seq<nat>)
    requires Sound(e) && |entropy| == EntropySize(e)
    ensures var ct := Encrypted(e, entropy, p);
            var lost := Min(Total(cuts), |ct|);
            && (lost == 0 ==> Decrypted(e, Rest(ct, cuts)) == Some(p))
            && (e.NoEncryption? ==> Decrypted(e, Rest(ct, cuts)) == Some(p[lost..]))
            && (e.CbcMode? && lost > 0 ==>
                  Decrypted(e, Rest(ct, cuts))
                  == if lost % BLOCK == 0 && |ct| - lost >= 2 * BLOCK then Some(p[lost..]) else None)
  {
    var ct := Encrypted(e, entropy, p);
    var lost := Min(Total(cuts), |ct|);
    RestIsTail(ct, cuts);
    if lost == 0 {
      assert ct[lost..] == ct;
      DecryptsEncrypted(e, entropy, p);
    } else if e.CbcMode? {
      CbcAfterLoss(e.cipher, entropy, p, lost);
    }
  }

  /** Reads the stored backup, undoes encryption and compression, and hands the bytes out. */
  class RestoreReader {
    const data: Bytes                // what the decompressor yields
    const corrupt: bool              // and whether it ends in an error
    var offset: nat

    ghost predicate Valid() reads this {
      offset <= |data|
    }

    constructor (data: Bytes, corrupt: bool)
      ensures Valid() && this.data == data && this.corrupt == corrupt && offset == 0
    {
      this.data, this.corrupt, offset := data, corrupt, 0;
    }

    /** One read; the decompressor may have fewer bytes at hand than the buffer holds. */
    method Read(p: array<bv8>, atHand: nat) returns (n: nat, err: ReadError)
      requires Valid()
      modifies this, p
      ensures Valid()
      ensures n == Span(data, old(offset), Min(p.Length, atHand)) && offset == old(offset) + n
      ensures p[..n] == data[old(offset)..offset] && p[n..] == old(p[n..])
      ensures err == if old(offset) < |data| then NoError else if corrupt then Failed else Eof
    {
      if offset == |data| {
        return 0, if corrupt then Failed else Eof;
      }
      n := Span(data, offset, Min(p.Length, atHand));
      forall i | 0 <= i < n {
        p[i] := data[offset + i];
      }
      assert p[..n] == data[offset..offset + n];
      offset, err := offset + n, NoError;
    }
  }

  method NewRestoreReader(backend: Backend, k: Compressor, e: Encryptor, path: string) returns (reader: RestoreReader?)
    requires Sound(e)
    ensures reader == null <==> Restorable(backend.store, k, e, path).BadHeader?
    ensures reader != null ==> fresh(reader) && reader.Valid() && reader.offset == 0
                               && Stream(reader.data, reader.corrupt) == Restorable(backend.store, k, e, path)
  {
    if path !in backend.store {
      return null;
    }
    var compressed := Decrypt(e, backend.store[path]);
    if compressed.None? {
      return null;
    }
    var stream := k.decompress(compressed.value);
    if stream.BadHeader? {
      return null;
    }
    reader := new RestoreReader(stream.data, stream.corrupt);
  }

  /** The stream a restore with this configuration yields, if any. */
  ghost function Restorable(store: map<string, Bytes>, k: Compressor, e: Encryptor, path: string): Decompressed
    requires Sound(e)
  {
    if path !in store then BadHeader
    else match Decrypted(e, store[path])
      case None => BadHeader
      case Some(c) => k.decompress(c)
  }

  // ----- The round trip ----------------------------------------------------------------------------------------

  function Concat(chunks: seq<Bytes>): Bytes {
    if chunks == [] then [] else Concat(chunks[..|chunks| - 1]) + chunks[|chunks| - 1]
  }

  /** What was stored is what a restore with the same configuration yields. */
  lemma StoredIsRestorable(after: map<string, Bytes>, before: map<string, Bytes>, path: string, k: Compressor,
                           e: Encryptor, data: Bytes)
    requires Sound(e) && Lossless(k) && Stored(after, before, path, k, e, data)
    ensures Restorable(after, k, e, path) == Stream(data, false)
  {}

  /** Earlier backups under other keys still restore as before. */
  lemma OtherBackupsKept(after: map<string, Bytes>, before: map<string, Bytes>, path: string, other: string,
                         k: Compressor, e: Encryptor, data: Bytes)
    requires Sound(e) && Stored(after, before, path, k, e, data) && other != path
    ensures Restorable(after, k, e, other) == Restorable(before, k, e, other)
  {
    assert other in after <==> other in before;
  }

  method WriteAll(w: BackupWriter, chunks: seq<Bytes>)
    modifies w
    ensures w.buffer == old(w.buffer) + Concat(chunks)
  {
    for i := 0 to |chunks|
      invariant w.buffer == old(w.buffer) + Concat(chunks[..i])
    {
      assert chunks[..i + 1][..i] == chunks[..i];
      var _ := w.Write(chunks[i]);
    }
    assert chunks[..|chunks|] == chunks;
  }

  /** One read: the size of the buffer and what the decompressor has at hand for it. */
  datatype ReadCall = ReadCall(size: nat, atHand: nat)

  function Limits(calls: seq<ReadCall>): (sizes: seq<nat>)
    ensures |sizes| == |calls|
  {
    seq(|calls|, i requires 0 <= i < |calls| => Min(calls[i].size, calls[i].atHand))
  }

  /** Where a sequence of reads stands after the first `i`. */
  ghost predicate Progress(data: Bytes, start: nat, sizes: seq<nat>, i: nat, offset: nat, out: Bytes, eof: bool) {
    && start <= offset <= |data| && i <= |sizes|
    && offset == start + Min(Total(sizes[..i]), |data| - start) && out == data[start..offset]
    && (eof <==> i > 0 && Total(sizes[..i - 1]) >= |data| - start)
  }

  lemma ProgressStep(data: Bytes, start: nat, sizes: seq<nat>, i: nat, offset: nat, out: Bytes, eof: bool, more: Bytes,
                     atEnd: bool)
    requires i < |sizes| && Progress(data, start, sizes, i, offset, out, eof)
    requires more == data[offset..offset + Span(data, offset, sizes[i])] && atEnd == (offset == |data|)
    ensures Progress(data, start, sizes, i + 1, offset + |more|, out + more, eof || atEnd)
  {
    TotalStep(sizes, i);
  }

  lemma ProgressMade(data: Bytes, start: nat, sizes: seq<nat>, offset: nat, out: Bytes, eof: bool)
    requires Progress(data, start, sizes, |sizes|, offset, out, eof)
    ensures out == Delivered(data, start, sizes)
    ensures eof <==> ReadsPast(|data| - start, sizes)
    ensures eof ==> out == data[start..]
  {
    assert sizes[..|sizes|] == sizes;
    DeliveredExactly(data, start, sizes);
    if sizes != [] {
      TotalPrefix(sizes, |sizes| - 1);
    }
  }

  lemma TotalStep(sizes: seq<nat>, i: nat)
    requires i < |sizes|
    ensures Total(sizes[..i + 1]) == Total(sizes[..i]) + sizes[i]
    ensures i > 0 ==> Total(sizes[..i - 1]) <= Total(sizes[..i])
  {
    assert sizes[..i + 1] == sizes[..i] + [sizes[i]];
    TotalSnoc(sizes[..i], sizes[i]);
    if i > 0 {
      assert sizes[..i][..i - 1] == sizes[..i - 1];
      TotalPrefix(sizes[..i], i - 1);
    }
  }

  /** Successive reads of a restore reader; at the end of the stream they report EOF or its corruption. */
  method ReadMany(r: RestoreReader, calls: seq<ReadCall>) returns (out: Bytes, eof: bool, failed: bool)
    requires r.Valid()
    modifies r
    ensures r.Valid() && r.offset == old(r.offset) + |out|
    ensures out == Delivered(r.data, old(r.offset), Limits(calls))
    ensures eof || failed <==> ReadsPast(|r.data| - old(r.offset), Limits(calls))
    ensures eof ==> !r.corrupt && out == r.data[old(r.offset)..]
    ensures failed ==> r.corrupt
  {
    ghost var start, sizes := r.offset, Limits(calls);
    out, eof, failed := [], false, false;
    ghost var ended := false;
    for i := 0 to |calls|
      invariant r.Valid() && eof == (ended && !r.corrupt) && failed == (ended && r.corrupt)
      invariant Progress(r.data, start, sizes, i, r.offset, out, ended)
    {
      ghost var offset := r.offset;
      var p := new bv8[calls[i].size];
      var n, err := r.Read(p, calls[i].atHand);
      ProgressStep(r.data, start, sizes, i, offset, out, ended, p[..n], err != NoError);
      out := out + p[..n];
      eof, failed := eof || err == Eof, failed || err == Failed;
      ended := ended || err != NoError;
    }
    ProgressMade(r.data, start, sizes, r.offset, out, ended);
  }

  /** One read into a fresh buffer of the given size. */
  method NextDecrypted(r: DecryptingReader, size: nat) returns (more: Bytes, err: ReadError)
    requires r.Valid()
    modifies r
    ensures r.Valid() && r.Content() == old(r.Content()) && r.offset == old(r.offset) + |more|
    ensures r.cuts == if old(r.cuts) == [] then [] else old(r.cuts)[1..]
    ensures old(r.cuts) != [] || old(r.Content()).None? ==> more == [] && err == Failed
    ensures old(r.cuts) == [] && old(r.Content()).Some? ==>
              var data := old(r.Content()).value;
              && old(r.offset) <= |data| && more == data[old(r.offset)..old(r.offset) + Span(data, old(r.offset), size)]
              && err == if old(r.offset) == |data| then Eof else NoError
  {
    var p := new bv8[size];
    var n;
    n, err := r.Read(p);
    more := p[..n];
  }

  /** The reads that are left once `n` have failed. */
  function Later(sizes: seq<nat>, n: nat): seq<nat> {
    if n <= |sizes| then sizes[n..] else []
  }

  /** Reads for as long as the source keeps failing. */
  method ReadThroughFailures(r: DecryptingReader, sizes: seq<nat>) returns (used: nat)
    requires r.Valid()
    modifies r
    ensures r.Valid() && r.Content() == old(r.Content()) && r.offset == old(r.offset)
    ensures used == Min(|old(r.cuts)|, |sizes|) && r.cuts == old(r.cuts)[used..]
  {
    used := 0;
    while used < |sizes| && r.cuts != []
      invariant r.Valid() && r.Content() == old(r.Content()) && r.offset == old(r.offset)
      invariant used <= |sizes| && used <= |old(r.cuts)| && r.cuts == old(r.cuts)[used..]
    {
      var more, err := NextDecrypted(r, sizes[used]);
      used := used + 1;
    }
  }

  /** Successive reads of a source that fails no more. */
  method ReadDecrypted(r: DecryptingReader, sizes: seq<nat>) returns (out: Bytes, eof: bool, failed: bool)
    requires r.Valid() && r.cuts == []
    modifies r
    ensures r.Valid() && r.cuts == [] && r.Content() == old(r.Content())
    ensures old(r.Content()).None? ==> out == [] && !eof && (failed <==> sizes != [])
    ensures old(r.Content()).Some? ==>
              var data := old(r.Content()).value;
              && !failed && old(r.offset) <= |data| && out == Delivered(data, old(r.offset), sizes)
              && (eof <==> ReadsPast(|data| - old(r.offset), sizes))
              && (eof ==> out == data[old(r.offset)..])
  {
    ghost var start, content := r.offset, r.Content();
    out, eof, failed := [], false, false;
    for i := 0 to |sizes|
      invariant r.Valid() && r.cuts == [] && r.Content() == content
      invariant content.None? ==> out == [] && !eof && (failed <==> i > 0)
      invariant content.Some? ==> !failed && Progress(content.value, start, sizes, i, r.offset, out, eof)
    {
      ghost var offset := r.offset;
      var more, err := NextDecrypted(r, sizes[i]);
      if content.Some? {
        ProgressStep(content.value, start, sizes, i, offset, out, eof, more, err == Eof);
      }
      out := out + more;
      eof, failed := eof || err == Eof, failed || err == Failed;
    }
    if content.Some? {
      ProgressMade(content.value, start, sizes, r.offset, out, eof);
    }
  }

  /**
   Successive reads with buffers of any sizes, of a source that fails any number of times first. Each
   failure costs one read; what comes then is the decryption of what is left of the source.
   */
  method ReadOn(r: DecryptingReader, sizes: seq<nat>) returns (out: Bytes, eof: bool, failed: bool)
    requires r.Valid() && !r.initialized
    modifies r
    ensures r.Valid()
    ensures var left, later := Decrypted(r.encryptor, Rest(old(r.source), old(r.cuts))), Later(sizes, |old(r.cuts)|);
            && (left.None? ==> out == [] && !eof && (failed <==> sizes != []))
            && (left.Some? ==>
                  && (failed <==> sizes != [] && old(r.cuts) != []) && out == Delivered(left.value, 0, later)
                  && (eof <==> ReadsPast(|left.value|, later)) && (eof ==> out == left.value))
  {
    ghost var cuts, content := r.cuts, r.Content();
    var used := ReadThroughFailures(r, sizes);
    out, eof, failed := [], false, used > 0;
    if used < |sizes| || |r.cuts| == 0 {
      var more;
      out, eof, more := ReadDecrypted(r, sizes[used..]);
      failed := failed || more;
      assert sizes[used..] == Later(sizes, |cuts|);
    }
  }

  /**
   The whole path: however the data is chunked on the way in and whatever buffers read it back, the
   output is a prefix of the data, all of it if the buffers suffice, and EOF is reported exactly by a
   read made after all of it. Other backups are kept in any case.
   */
  method RoundTrip(backend: Backend, k: Compressor, e: Encryptor, path: string, chunks: seq<Bytes>,
                   entropy: Option<Bytes>, failure: Option<Option<Bytes>>, calls: seq<ReadCall>)
    returns (ok: bool, out: Bytes, eof: bool, failed: bool)
    requires Sound(e) && Lossless(k) && (entropy.Some? ==> |entropy.value| == EntropySize(e))
    modifies backend
    ensures backend.store - {path} == old(backend.store) - {path}
    ensures ok <==> Writable(k, e, Concat(chunks), entropy) && failure.None?
    ensures ok ==> var data := Concat(chunks);
                   && !failed && out == data[..Min(Total(Limits(calls)), |data|)]
                   && (eof <==> ReadsPast(|data|, Limits(calls))) && (eof ==> out == data)
  {
    out, eof, failed := [], false, false;
    var w := new BackupWriter(backend, k, e, path);
    WriteAll(w, chunks);
    ghost var before, data := backend.store, Concat(chunks);
    assert w.buffer == data;
    ok := w.Close(entropy, failure);
    if !ok {
      return;
    }
    StoredIsRestorable(backend.store, before, path, k, e, data);
    var r := NewRestoreReader(backend, k, e, path);
    DeliveredExactly(data, 0, Limits(calls));
    out, eof, failed := ReadMany(r, calls);
  }

  /**
   The same for the encrypting writer and the decrypting reader: what any chunking of writes puts in,
   any sequence of buffers takes out, in order and to the last byte; only then is EOF reported.
   */
  method EncryptedRoundTrip(e: Encryptor, chunks: seq<Bytes>, entropy: Option<Bytes>, partial: Option<nat>,
                            unclosed: bool,
                            sizes: seq<nat>)
    returns (ok: bool, out: Bytes, eof: bool)
    requires Sound(e) && (entropy.Some? ==> |entropy.value| == EntropySize(e))
    ensures ok <==> (entropy.Some? || e.NoEncryption?) && partial.None? && !unclosed
    ensures ok ==> var data := Concat(chunks);
                   && out == data[..Min(Total(sizes), |data|)]
                   && (eof <==> ReadsPast(|data|, sizes)) && (eof ==> out == data)
  {
    out, eof := [], false;
    var sink := new Sink();
    var w := new EncryptingWriter(sink, e);
    for i := 0 to |chunks|
      invariant w.buffer == Concat(chunks[..i]) && sink.data == []
    {
      assert chunks[..i + 1][..i] == chunks[..i];
      var _ := w.Write(chunks[i]);
    }
    assert chunks[..|chunks|] == chunks;
    ok := w.Close(entropy, partial, unclosed);
    if !ok {
      return;
    }
    ghost var data := Concat(chunks);
    ghost var ct :| sink.data == [] + ct && Decrypted(e, ct) == Some(data);
    assert [] + ct == ct;
    var r := new DecryptingReader(sink.data, [], e);
    DeliveredExactly(data, 0, sizes);
    var failed;
    out, eof, failed := ReadDecrypted(r, sizes);
  }
}
