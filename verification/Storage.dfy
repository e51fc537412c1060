/** Saving receipt files to S3: the size switch, the multipart protocol and s3:// URIs (receipt_ocr/storage.py). */
module Storage {
  import opened Wrappers
  import opened Text
  import Arith

  newtype Byte = b: int | 0 <= b < 256

  type Bytes = seq<Byte>

  const MIB := 1024 * 1024
  const MULTIPART_THRESHOLD := 5 * MIB
  const MULTIPART_CHUNK_SIZE := 5 * MIB

  // ---------------------------------------------------------------- splitting

  /** The data cut into pieces of c bytes, the last one possibly shorter; no piece for no data. */
  function Chunks(data: Bytes, c: nat): seq<Bytes>
    requires c > 0
    decreases |data|
  {
    if data == [] then [] else if |data| <= c then [data] else [data[..c]] + Chunks(data[c..], c)
  }

  function Concat(pieces: seq<Bytes>): Bytes {
    if pieces == [] then [] else pieces[0] + Concat(pieces[1..])
  }

  function CeilDiv(n: nat, c: nat): nat
    requires c > 0
  {
    if n % c == 0 then n / c else n / c + 1
  }

  /** The pieces are the data: nothing lost, repeated or reordered, and cut exactly where S3 needs it. */
  lemma {:induction false} ChunksPartitionData(data: Bytes, c: nat)
    requires c > 0
    ensures Concat(Chunks(data, c)) == data
    ensures forall k :: 0 <= k < |Chunks(data, c)| - 1 ==> |Chunks(data, c)[k]| == c
    ensures data != [] ==> Chunks(data, c) != [] && 1 <= |Chunks(data, c)[|Chunks(data, c)| - 1]| <= c
    decreases |data|
  {
    if |data| > c {
      ChunksPartitionData(data[c..], c);
      assert data == data[..c] + data[c..];
      assert Chunks(data, c)[1..] == Chunks(data[c..], c);
    } else if data != [] {
      assert [data][1..] == [];
      assert data + [] == data;
    }
  }

  lemma {:induction false} ChunkCount(data: Bytes, c: nat)
    requires c > 0
    ensures |Chunks(data, c)| == CeilDiv(|data|, c)
    decreases |data|
  {
    if |data| > c {
      ChunkCount(data[c..], c);
      CeilStep(|data|, c);
    } else if |data| < c {
      assert |data| / c == 0;
    } else {
      assert |data| / c == 1;
    }
  }

  lemma CeilStep(n: nat, c: nat)
    requires 0 < c < n
    ensures CeilDiv(n, c) == CeilDiv(n - c, c) + 1
  {
    assert n == (n - c) + c;
    ShiftByOne(n - c, c);
  }

  lemma CeilAsFloor(n: nat, c: nat)
    requires c > 0
    ensures CeilDiv(n, c) == (n + c - 1) / c
  {
    var q, r := n / c, n % c;
    assert n == q * c + r;
    if r == 0 {
      Arith.FloorUnique(n + c - 1, c, q, c - 1);
    } else {
      assert (q + 1) * c == q * c + c;
      Arith.FloorUnique(n + c - 1, c, q + 1, r - 1);
    }
  }

  lemma ShiftByOne(m: nat, c: nat)
    requires c > 0
    ensures (m + c) / c == m / c + 1 && (m + c) % c == m % c
  {
    Arith.FloorShift(1, m, c);
    assert (m + c) % c == (m + c) - ((m + c) / c) * c;
    assert m % c == m - (m / c) * c;
    assert (m / c + 1) * c == (m / c) * c + c;
  }

  // ---------------------------------------------------------------- the upload protocol

  datatype Part = Part(number: nat, body: Bytes, etag: string)

  datatype Tag = Tag(number: nat, etag: string)

  /** A request that stores something: answered, refused, or carried out although its answer is lost. */
  datatype Answer = Accepted | Refused | Unseen

  /** How the remote side behaves: which calls raise, and the ETag each part gets. */
  datatype Remote = Remote(createOk: bool, partOk: nat -> bool, etag: nat -> string, complete: Answer, put: Answer)

  predicate AllPartsOk(data: Bytes, remote: Remote) {
    forall k :: 1 <= k <= |Chunks(data, MULTIPART_CHUNK_SIZE)| ==> remote.partOk(k)
  }

  /** The upload reaches its end on the remote side, whether or not the caller learns of it. */
  predicate Lands(data: Bytes, remote: Remote) {
    remote.createOk && AllPartsOk(data, remote) && !remote.complete.Refused?
  }

  /** Part k carries number k + 1, and is listed with that number and the ETag it got. */
  predicate Labelled(parts: seq<Part>, tags: seq<Tag>, remote: Remote) {
    && |tags| == |parts|
    && forall k :: 0 <= k < |parts| ==>
         parts[k].number == tags[k].number == k + 1 && parts[k].etag == tags[k].etag == remote.etag(k + 1)
  }

  lemma LabelledAppend(parts: seq<Part>, tags: seq<Tag>, p: Part, remote: Remote)
    requires Labelled(parts, tags, remote) && p.number == |parts| + 1 && p.etag == remote.etag(p.number)
    ensures Labelled([], [], remote) && Labelled(parts + [p], tags + [Tag(p.number, p.etag)], remote)
  {
  }

  /** One object key as S3 sees it: what a reader gets, and the latest multipart upload to the key. */
  class S3Object {
    var content: Option<Bytes>
    var created: bool
    var parts: seq<Part>
    var completed: Option<seq<Tag>>
    var aborts: nat

    constructor (content: Option<Bytes>)
      ensures this.content == content && !created && parts == [] && completed == None && aborts == 0
    {
      this.content, created, parts, completed, aborts := content, false, [], None, 0;
    }

    /**
     _save_multipart, whatever the key held before. On success the parts are numbered 1, 2, ... without
     gaps, all but the last are exactly one chunk, exactly they are completed, and the key holds the data.
     After a failure the upload, if it was started, is aborted once; the key holds what it held before,
     unless only the answer to the completion was lost.
     */
    method SaveMultipart(data: Bytes, remote: Remote) returns (ok: bool)
      modifies this
      ensures ok <==> Lands(data, remote) && remote.complete.Accepted?
      ensures content == if Lands(data, remote) then Some(data) else old(content)
      ensures completed.Some? <==> Lands(data, remote)
      ensures completed.Some? ==>
        Bodies(parts) == Chunks(data, MULTIPART_CHUNK_SIZE) && Numbered(parts, completed.value)
      ensures completed.Some? ==>
        && Labelled(parts, completed.value, remote)
        && (forall k :: 0 <= k < |parts| - 1 ==> |parts[k].body| == 5242880)
      ensures created == remote.createOk && aborts == if created && !ok then 1 else 0
    {
      hide Chunks, Concat, Bodies, Split, Numbered, Labelled;
      created, parts, completed, aborts := false, [], None, 0;
      if !remote.createOk {
        return false;
      }
      SplitStart(data);
      NumberedAppend([], [], Part(1, [], ""));
      LabelledAppend([], [], Part(1, [], remote.etag(1)), remote);
      created := true;
      var tags: seq<Tag> := [];
      var offset, number := 0, 1;
      ghost var all := Chunks(data, MULTIPART_CHUNK_SIZE);
      while offset < |data|
        invariant number == |parts| + 1
        invariant Split(all, Bodies(parts), data, offset)
        invariant Numbered(parts, tags)
        invariant Labelled(parts, tags, remote)
        invariant forall k :: 1 <= k < number ==> remote.partOk(k)
        invariant completed == None && aborts == 0 && created && content == old(content)
        decreases |data| - offset
      {
        var rest := data[offset..];
        var chunk := if |rest| <= MULTIPART_CHUNK_SIZE then rest else rest[..MULTIPART_CHUNK_SIZE];
        SplitStep(all, Bodies(parts), data, offset);
        if !remote.partOk(number) {
          aborts := aborts + 1;
          return false;
        }
        ghost var part := Part(number, chunk, remote.etag(number));
        BodiesAppend(parts, part);
        NumberedAppend(parts, tags, part);
        LabelledAppend(parts, tags, part, remote);
        parts := parts + [Part(number, chunk, remote.etag(number))];
        tags := tags + [Tag(number, remote.etag(number))];
        offset := offset + MULTIPART_CHUNK_SIZE;
        number := number + 1;
      }
      SplitEnd(all, Bodies(parts), data, offset);
      ChunksPartitionData(data, MULTIPART_CHUNK_SIZE);
      BodiesAt(parts);
      if remote.complete.Refused? {
        aborts := aborts + 1;
        return false;
      }
      completed := Some(tags);
      content := Some(Concat(Bodies(parts)));
      if remote.complete.Unseen? {
        aborts := aborts + 1;
        return false;
      }
      return true;
    }

    /**
     save: one put up to the threshold, multipart above it. The key never holds anything but the whole
     data or what it held before, so saving the same data again cannot spoil a content-addressed key.
     */
    method Save(data: Bytes, remote: Remote) returns (ok: bool)
      modifies this
      ensures ok ==> content == Some(data)
      ensures |data| > 5242880 ==> (ok ==> |parts| == (|data| + 5242879) / 5242880)
      ensures |data| <= 5242880 ==> parts == old(parts)
      ensures content == Some(data) || (!ok && content == old(content))
      ensures |data| > MULTIPART_THRESHOLD ==>
        created == remote.createOk && (ok ==> |parts| == CeilDiv(|data|, MULTIPART_CHUNK_SIZE) >= 2)
      ensures |data| <= MULTIPART_THRESHOLD ==>
        && (ok <==> remote.put.Accepted?) && (content == old(content) || !remote.put.Refused?)
        && created == old(created) && parts == old(parts) && aborts == old(aborts)
    {
      if |data| > MULTIPART_THRESHOLD {
        ok := SaveMultipart(data, remote);
        ChunkCount(data, MULTIPART_CHUNK_SIZE);
        CeilAsFloor(|data|, MULTIPART_CHUNK_SIZE);
      } else {
        ok := remote.put.Accepted?;
        if !remote.put.Refused? {
          content := Some(data);
        }
      }
    }
  }

  function Bodies(parts: seq<Part>): (bodies: seq<Bytes>)
    ensures |bodies| == |parts|
  {
    if parts == [] then [] else Bodies(parts[..|parts| - 1]) + [parts[|parts| - 1].body]
  }

  lemma {:induction false} BodiesAt(parts: seq<Part>)
    ensures forall k :: 0 <= k < |parts| ==> Bodies(parts)[k] == parts[k].body
  {
    if parts != [] {
      BodiesAt(parts[..|parts| - 1]);
    }
  }

  lemma BodiesAppend(parts: seq<Part>, p: Part)
    ensures Bodies(parts + [p]) == Bodies(parts) + [p.body]
  {
    assert (parts + [p])[..|parts|] == parts;
  }

  /** Parts numbered 1, 2, ... and listed with exactly their own numbers and ETags. */
  predicate Numbered(parts: seq<Part>, tags: seq<Tag>) {
    |tags| == |parts|
    && forall k :: 0 <= k < |parts| ==> parts[k].number == k + 1 && tags[k] == Tag(parts[k].number, parts[k].etag)
  }

  lemma NumberedAppend(parts: seq<Part>, tags: seq<Tag>, p: Part)
    requires Numbered(parts, tags) && p.number == |parts| + 1
    ensures Numbered([], []) && Numbered(parts + [p], tags + [Tag(p.number, p.etag)])
  {
  }

  /** The chunks are those uploaded so far followed by those of the data from offset on. */
  predicate Split(all: seq<Bytes>, done: seq<Bytes>, data: Bytes, offset: nat) {
    all == done + if offset < |data| then Chunks(data[offset..], MULTIPART_CHUNK_SIZE) else []
  }

  lemma SplitStart(data: Bytes)
    ensures Split(Chunks(data, MULTIPART_CHUNK_SIZE), Bodies([]), data, 0)
  {
    assert data[0..] == data;
  }

  lemma SplitStep(all: seq<Bytes>, done: seq<Bytes>, data: Bytes, offset: nat)
    requires offset < |data| && Split(all, done, data, offset)
    ensures |done| < |all|
    ensures
      var rest := data[offset..];
      var chunk := if |rest| <= MULTIPART_CHUNK_SIZE then rest else rest[..MULTIPART_CHUNK_SIZE];
      Split(all, done + [chunk], data, offset + MULTIPART_CHUNK_SIZE)
  {
    var rest := data[offset..];
    if |rest| > MULTIPART_CHUNK_SIZE {
      assert rest[MULTIPART_CHUNK_SIZE..] == data[offset + MULTIPART_CHUNK_SIZE..];
    } else {
      assert done + [rest] + [] == done + [rest];
    }
  }

  lemma SplitEnd(all: seq<Bytes>, done: seq<Bytes>, data: Bytes, offset: nat)
    requires offset >= |data| && Split(all, done, data, offset)
    ensures all == done
  {
    assert done + [] == done;
  }

  // ---------------------------------------------------------------- s3:// URIs

  const SCHEME := "s3://"

  datatype UriError = NotS3 | MissingKey

  function S3Uri(bucket: string, key: string): string {
    SCHEME + bucket + "/" + key
  }

  function ParseS3Uri(uri: string): Result<(string, string), UriError> {
    if !(SCHEME <= uri) then Failure(NotS3)
    else
      var rest := uri[|SCHEME|..];
      var slash := Find(rest, '/');
      if slash == -1 then Failure(MissingKey) else Success((rest[..slash], rest[slash + 1..]))
  }

  /** Writing and parsing a URI are inverse to each other, for any key, slashes included. */
  lemma S3UriRoundTrip(bucket: string, key: string, uri: string)
    requires '/' !in bucket
    ensures ParseS3Uri(S3Uri(bucket, key)) == Success((bucket, key))
    ensures ParseS3Uri(uri).Success? ==> S3Uri(ParseS3Uri(uri).value.0, ParseS3Uri(uri).value.1) == uri
  {
    hide Find;
    var rest := bucket + "/" + key;
    assert S3Uri(bucket, key) == SCHEME + rest;
    assert S3Uri(bucket, key)[|SCHEME|..] == rest;
    FindAfter(bucket, '/', key);
    assert rest[..|bucket|] == bucket && rest[|bucket| + 1..] == key;
    ParsedUriRewrites(uri);
  }

  /** A text is no S3 address exactly when it lacks the scheme, and has no key exactly when it lacks a slash. */
  lemma UriErrorsIff(uri: string)
    ensures ParseS3Uri(uri) == Failure(NotS3) <==> !("s3://" <= uri)
    ensures ParseS3Uri(uri) == Failure(MissingKey) <==> "s3://" <= uri && '/' !in uri[5..]
  {
    hide Find;
  }

  lemma ParsedUriRewrites(uri: string)
    ensures ParseS3Uri(uri).Success? ==> S3Uri(ParseS3Uri(uri).value.0, ParseS3Uri(uri).value.1) == uri
  {
    hide Find;
    if ParseS3Uri(uri).Success? {
      var tail := uri[|SCHEME|..];
      var slash := Find(tail, '/');
      var bucket, key := tail[..slash], tail[slash + 1..];
      assert ParseS3Uri(uri).value == (bucket, key);
      assert tail == bucket + ("/" + key);
      assert uri == SCHEME + tail;
      assert SCHEME + (bucket + ("/" + key)) == SCHEME + bucket + "/" + key;
    }
  }
}
