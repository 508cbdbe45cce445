/**
 * The web server's `/submit` handler: the uploaded files become a list, the
 * job gets an id (the lowercase hexadecimal text of 16 random bytes), every
 * upload is read and put into the input bucket under that id, and only then
 * is the job message, the form fields plus `id`, `originalTimestamp` and
 * `files`, sent to the job queue. Any error answers 500. The random bytes and
 * the clock reading are inputs; storage is a map and the queue a sequence.
 */
module Submit {
  import opened Common
  import opened Effects

  /** The parts of `config.json` the handler reads. */
  datatype ServerConfig = ServerConfig(bucket: string, inputPrefix: string, queueUrl: string)

  /** A file formidable stored: the name the client gave it, where it was written, and its bytes. */
  datatype Upload = Upload(name: string, path: string, content: seq<Byte>)

  /** `request.files.inputFiles`: absent, one file object, or an array of them. */
  datatype Uploads = Missing | Single(file: Upload) | Several(files: seq<Upload>)

  /** The values a job message holds: form fields are strings, the timestamp a number, `files` a list. */
  datatype Value = Str(s: string) | Num(n: int) | Refs(refs: seq<FileRef>)

  /** A job message, as the object handed to `JSON.stringify`. */
  type Params = map<string, Value>

  datatype Call =
    | ReadUpload(path: string)
    | PutObject(bucket: string, key: string, content: seq<Byte>)
    | SendMessage(queueUrl: string, body: Params)

  const SubmittedText := "Your request has been submitted and will be processed shortly. Results will be sent to the specified email."
  const ErrorText := "Your request could not be processed due to an internal error."

  // ---------------------------------------------------------------- the id

  const HexAlphabet := "0123456789abcdef"

  function HexDigit(d: int): char
    requires 0 <= d < 16
  {
    HexAlphabet[d]
  }

  /** `buffer.toString('hex')`: two lowercase digits per byte, high nibble first, bytes in order. */
  function Hex(bs: seq<Byte>): (h: string)
    ensures |h| == 2 * |bs|
  {
    if bs == [] then "" else [HexDigit(bs[0] as int / 16), HexDigit(bs[0] as int % 16)] + Hex(bs[1..])
  }

  /** Byte `i` of the input is spelled by characters `2i` (its high nibble) and `2i + 1` (its low nibble). */
  lemma {:induction false} HexDigits(bs: seq<Byte>)
    ensures forall i :: 0 <= i < |bs| ==> Hex(bs)[2 * i] == HexDigit(bs[i] as int / 16) && Hex(bs)[2 * i + 1] == HexDigit(bs[i] as int % 16)
  {
    if bs != [] {
      var rest := Hex(bs[1..]);
      var h := Hex(bs);
      HexDigits(bs[1..]);
      assert h == [HexDigit(bs[0] as int / 16), HexDigit(bs[0] as int % 16)] + rest;
      forall i | 1 <= i < |bs|
        ensures h[2 * i] == HexDigit(bs[i] as int / 16) && h[2 * i + 1] == HexDigit(bs[i] as int % 16)
      {
        assert h[2 * i] == rest[2 * (i - 1)] && h[2 * i + 1] == rest[2 * (i - 1) + 1];
        assert bs[i] == bs[1..][i - 1];
      }
    }
  }

  /** The value of a hexadecimal digit, upper or lower case; any other character has none. */
  function DigitValue(c: char): Option<int> {
    if '0' <= c <= '9' then Some(c as int - '0' as int)
    else if 'a' <= c <= 'f' then Some(c as int - 'a' as int + 10)
    else if 'A' <= c <= 'F' then Some(c as int - 'A' as int + 10)
    else None
  }

  /** Hexadecimal text back to bytes: none for an odd length or a character that is not a digit. */
  function Unhex(h: string): Option<seq<Byte>> {
    if h == [] then Some([])
    else if |h| == 1 then None
    else
      match (DigitValue(h[0]), DigitValue(h[1]), Unhex(h[2..]))
      case (Some(hi), Some(lo), Some(rest)) => Some([(hi * 16 + lo) as Byte] + rest)
      case _ => None
  }

  lemma DigitRoundTrip(d: int)
    requires 0 <= d < 16
    ensures DigitValue(HexDigit(d)) == Some(d)
  {
  }

  /** The id text is the bytes' encoding and nothing else: decoding it gives the bytes back. */
  lemma {:induction false} UnhexHex(bs: seq<Byte>)
    ensures Unhex(Hex(bs)) == Some(bs)
  {
    if bs != [] {
      var b := bs[0] as int;
      DigitRoundTrip(b / 16);
      DigitRoundTrip(b % 16);
      UnhexHex(bs[1..]);
      UnhexCons(HexDigit(b / 16), HexDigit(b % 16), Hex(bs[1..]));
      assert (b / 16 * 16 + b % 16) as Byte == bs[0];
      assert [bs[0]] + bs[1..] == bs;
    }
  }

  /** Two digits in front of decodable text decode to one more byte in front. */
  lemma UnhexCons(hi: char, lo: char, rest: string)
    requires DigitValue(hi).Some? && DigitValue(lo).Some? && Unhex(rest).Some?
    requires 0 <= DigitValue(hi).value < 16 && 0 <= DigitValue(lo).value < 16
    ensures Unhex([hi, lo] + rest) == Some([(DigitValue(hi).value * 16 + DigitValue(lo).value) as Byte] + Unhex(rest).value)
  {
    var h := [hi, lo] + rest;
    assert h[0] == hi && h[1] == lo && h[2..] == rest;
  }

  /** Different random bytes give different ids. */
  lemma HexInjective(a: seq<Byte>, b: seq<Byte>)
    requires Hex(a) == Hex(b)
    ensures a == b
  {
    UnhexHex(a);
    UnhexHex(b);
  }

  /** Every character of an id is one of `0-9a-f`: none is an upper-case letter or a '/'. */
  lemma {:induction false} HexLowercase(bs: seq<Byte>)
    ensures forall c :: c in Hex(bs) ==> c in HexAlphabet
  {
    if bs != [] {
      var hi, lo := bs[0] as int / 16, bs[0] as int % 16;
      HexLowercase(bs[1..]);
      assert Hex(bs) == [HexDigit(hi), HexDigit(lo)] + Hex(bs[1..]);
      assert HexDigit(hi) == HexAlphabet[hi] && HexDigit(lo) == HexAlphabet[lo];
    }
  }

  /** The id of a job: 16 bytes give 32 characters. */
  lemma IdLength(bs: seq<Byte>)
    requires |bs| == 16
    ensures |Hex(bs)| == 32
  {
  }

  // ---------------------------------------------------------------- the message

  /**
   * `Array.isArray(x) ? x : [x]`: an array is used as it is and anything else
   * becomes a one-element list; a missing upload becomes `[undefined]`.
   */
  function Listed(uploads: Uploads): seq<Option<Upload>> {
    match uploads
    case Missing => [None]
    case Single(u) => [Some(u)]
    case Several(us) => seq(|us|, i requires 0 <= i < |us| => Some(us[i]))
  }

  /** An array of uploads, in order, is the list; a single upload is a list of one; a missing one is `[undefined]`. */
  lemma ListedUploads(uploads: Uploads)
    ensures var items := Listed(uploads);
      && (uploads.Several? ==> |items| == |uploads.files| && forall i :: 0 <= i < |items| ==> items[i] == Some(uploads.files[i]))
      && (uploads.Single? ==> items == [Some(uploads.file)])
      && (uploads.Missing? ==> items == [None])
  {
  }

  /** Where an upload is stored: `inputPrefix + id + "/" + name` in the input bucket. */
  function Entry(cfg: ServerConfig, id: string, u: Upload): FileRef {
    FileRef(cfg.bucket, cfg.inputPrefix + id + "/" + u.name)
  }

  /** The submitted form with `id`, `originalTimestamp` and `files` set on it. */
  function Message(fields: map<string, string>, id: string, now: int, refs: seq<FileRef>): Params {
    (map k | k in fields :: Str(fields[k]))["id" := Str(id)]["originalTimestamp" := Num(now)]["files" := Refs(refs)]
  }

  /**
   * The message has the form's keys and the three set on it; every other
   * form field keeps its text, and a form field named like one of the three is replaced.
   */
  lemma MessageFields(fields: map<string, string>, id: string, now: int, refs: seq<FileRef>)
    ensures var m := Message(fields, id, now, refs);
      && m.Keys == fields.Keys + {"id", "originalTimestamp", "files"}
      && m["id"] == Str(id) && m["originalTimestamp"] == Num(now) && m["files"] == Refs(refs)
      && forall k :: k in fields && k !in {"id", "originalTimestamp", "files"} ==> m[k] == Str(fields[k])
  {
  }

  // ---------------------------------------------------------------- the handler

  /** The state of the upload loop when it stops: the calls it made, storage, the entries pushed, and whether it finished. */
  datatype Stored = Stored(steps: seq<Step<Call>>, storage: map<FileRef, seq<Byte>>, refs: seq<FileRef>, done: bool)

  /**
   * One pass of the loop for upload `item` from log position `n`: read the
   * file, push its entry, put it into storage. The pass finishes when both
   * calls succeed; a missing upload throws before any call, a failing read
   * pushes nothing, a failing put has pushed the entry.
   */
  function Visit(cfg: ServerConfig, id: string, item: Option<Upload>, faults: set<nat>, n: nat, storage: map<FileRef, seq<Byte>>): Stored {
    match item
    case None => Stored([], storage, [], false)
    case Some(u) =>
      var ref := Entry(cfg, id, u);
      var read := Step(ReadUpload(u.path), Succeeds(faults, n));
      var put := Step(PutObject(ref.bucket, ref.key, u.content), Succeeds(faults, n + 1));
      if !read.ok then Stored([read], storage, [], false)
      else if !put.ok then Stored([read] + [put], storage, [ref], false)
      else Stored([read] + [put], storage[ref := u.content], [ref], true)
  }

  /** A finished pass read and put its upload, both successfully, and pushed its entry. */
  lemma VisitDone(cfg: ServerConfig, id: string, item: Option<Upload>, faults: set<nat>, n: nat, storage: map<FileRef, seq<Byte>>)
    requires Visit(cfg, id, item, faults, n, storage).done
    ensures var v := Visit(cfg, id, item, faults, n, storage);
      && item.Some? && v.refs == [Entry(cfg, id, item.value)]
      && v.steps == [Step(ReadUpload(item.value.path), true), Step(PutObject(v.refs[0].bucket, v.refs[0].key, item.value.content), true)]
      && v.storage == storage[v.refs[0] := item.value.content]
  {
  }

  /**
   * The loop over the uploads from log position `n`: a pass per upload, in
   * order; a pass that throws ends the loop, and nothing after it is attempted.
   */
  function Stores(cfg: ServerConfig, id: string, items: seq<Option<Upload>>, faults: set<nat>, n: nat, storage: map<FileRef, seq<Byte>>): Stored
    decreases |items|
  {
    if items == [] then Stored([], storage, [], true)
    else
      var v := Visit(cfg, id, items[0], faults, n, storage);
      if !v.done then v
      else
        var rest := Stores(cfg, id, items[1..], faults, n + 2, v.storage);
        Stored(v.steps + rest.steps, rest.storage, v.refs + rest.refs, rest.done)
  }

  /** The loop from upload `i` on: the pass for upload `i`, then, when it finished, the loop from `i + 1`. */
  lemma StoresVisit(cfg: ServerConfig, id: string, items: seq<Option<Upload>>, i: nat, faults: set<nat>, n: nat, storage: map<FileRef, seq<Byte>>)
    requires i < |items|
    ensures var v := Visit(cfg, id, items[i], faults, n, storage);
      var rest := Stores(cfg, id, items[i + 1..], faults, n + 2, v.storage);
      Stores(cfg, id, items[i..], faults, n, storage)
        == if !v.done then v else Stored(v.steps + rest.steps, rest.storage, v.refs + rest.refs, rest.done)
  {
    assert items[i..][1..] == items[i + 1..];
  }

  /** What one request does: its calls, storage and the messages queued after it, and the status it answers. */
  datatype Reply = Reply(steps: seq<Step<Call>>, storage: map<FileRef, seq<Byte>>, queued: seq<Params>, status: int)

  /** The response text for a status. */
  function Text(status: int): string {
    if status == 200 then SubmittedText else ErrorText
  }

  /** The handler for form `fields`, `uploads`, random bytes `random` and clock `now`, from log position `n`. */
  function SubmitSpec(cfg: ServerConfig, fields: map<string, string>, uploads: Uploads, random: seq<Byte>, now: int,
                      faults: set<nat>, n: nat, storage: map<FileRef, seq<Byte>>): Reply
  {
    var id := Hex(random);
    var s := Stores(cfg, id, Listed(uploads), faults, n, storage);
    if !s.done then Reply(s.steps, s.storage, [], 500)
    else
      var m := Message(fields, id, now, s.refs);
      var sent := Succeeds(faults, n + |s.steps|);
      Reply(s.steps + [Step(SendMessage(cfg.queueUrl, m), sent)], s.storage, if sent then [m] else [], if sent then 200 else 500)
  }

  // ---------------------------------------------------------------- properties

  /** None of the steps is a send to a queue. */
  predicate SendsNothing(steps: seq<Step<Call>>) {
    forall i :: 0 <= i < |steps| ==> !steps[i].call.SendMessage?
  }

  /** The upload loop never sends a message. */
  lemma {:induction false} StoresSendsNothing(cfg: ServerConfig, id: string, items: seq<Option<Upload>>, faults: set<nat>, n: nat, storage: map<FileRef, seq<Byte>>)
    ensures SendsNothing(Stores(cfg, id, items, faults, n, storage).steps)
    decreases |items|
  {
    if items != [] && items[0].Some? {
      var u := items[0].value;
      var ref := Entry(cfg, id, u);
      if Succeeds(faults, n) && Succeeds(faults, n + 1) {
        var rest := Stores(cfg, id, items[1..], faults, n + 2, storage[ref := u.content]);
        StoresSendsNothing(cfg, id, items[1..], faults, n + 2, storage[ref := u.content]);
        var pair := [Step(ReadUpload(u.path), true), Step(PutObject(ref.bucket, ref.key, u.content), true)];
        assert Stores(cfg, id, items, faults, n, storage).steps == pair + rest.steps;
        SendsNothingAppend(pair, rest.steps);
      }
    }
  }

  lemma SendsNothingAppend(a: seq<Step<Call>>, b: seq<Step<Call>>)
    requires SendsNothing(a) && SendsNothing(b)
    ensures SendsNothing(a + b)
  {
    assert forall i :: |a| <= i < |a + b| ==> (a + b)[i] == b[i - |a|];
  }

  /**
   * A loop that finished read and put every upload, in order, each call
   * succeeding, and pushed one entry per upload at `inputPrefix + id + "/" + name`.
   */
  lemma {:induction false} StoresDone(cfg: ServerConfig, id: string, items: seq<Option<Upload>>, faults: set<nat>, n: nat, storage: map<FileRef, seq<Byte>>)
    requires Stores(cfg, id, items, faults, n, storage).done
    ensures var s := Stores(cfg, id, items, faults, n, storage);
      && |s.steps| == 2 * |items| && |s.refs| == |items|
      && forall i :: 0 <= i < |items| ==>
           && items[i].Some?
           && s.refs[i] == Entry(cfg, id, items[i].value)
           && s.steps[2 * i] == Step(ReadUpload(items[i].value.path), true)
           && s.steps[2 * i + 1] == Step(PutObject(s.refs[i].bucket, s.refs[i].key, items[i].value.content), true)
    decreases |items|
  {
    if items != [] {
      var s := Stores(cfg, id, items, faults, n, storage);
      var v := Visit(cfg, id, items[0], faults, n, storage);
      VisitDone(cfg, id, items[0], faults, n, storage);
      var rest := Stores(cfg, id, items[1..], faults, n + 2, v.storage);
      StoresDone(cfg, id, items[1..], faults, n + 2, v.storage);
      assert s.steps == v.steps + rest.steps && s.refs == v.refs + rest.refs;
      forall i | 1 <= i < |items|
        ensures items[i] == items[1..][i - 1]
        ensures s.refs[i] == rest.refs[i - 1]
        ensures s.steps[2 * i] == rest.steps[2 * (i - 1)] && s.steps[2 * i + 1] == rest.steps[2 * (i - 1) + 1]
      {
      }
    }
  }

  /** Storage changes only at the entries of uploads, each holding the bytes of an upload stored there. */
  lemma {:induction false} StoresFrame(cfg: ServerConfig, id: string, items: seq<Option<Upload>>, faults: set<nat>, n: nat, storage: map<FileRef, seq<Byte>>)
    ensures var s := Stores(cfg, id, items, faults, n, storage);
      && storage.Keys <= s.storage.Keys
      && forall r :: r in s.storage && (r !in storage || s.storage[r] != storage[r]) ==>
           exists i :: 0 <= i < |items| && items[i].Some? && r == Entry(cfg, id, items[i].value) && s.storage[r] == items[i].value.content
    decreases |items|
  {
    if items != [] && items[0].Some? {
      var u := items[0].value;
      var ref := Entry(cfg, id, u);
      if Succeeds(faults, n) && Succeeds(faults, n + 1) {
        var next := storage[ref := u.content];
        StoresFrame(cfg, id, items[1..], faults, n + 2, next);
        var s := Stores(cfg, id, items, faults, n, storage);
        forall r | r in s.storage && (r !in storage || s.storage[r] != storage[r])
          ensures exists i :: 0 <= i < |items| && items[i].Some? && r == Entry(cfg, id, items[i].value) && s.storage[r] == items[i].value.content
        {
          if r in next && s.storage[r] == next[r] {
            assert r == ref && items[0].Some?;
          } else {
            var i :| 0 <= i < |items[1..]| && items[1..][i].Some? && r == Entry(cfg, id, items[1..][i].value) && s.storage[r] == items[1..][i].value.content;
            assert items[i + 1] == items[1..][i];
          }
        }
      }
    }
  }

  /**
   * The job is queued exactly when the answer is 200, and then it is the last
   * call: the message carries `files`, one entry per upload in upload order.
   */
  lemma QueuedIffSubmitted(cfg: ServerConfig, fields: map<string, string>, uploads: Uploads, random: seq<Byte>, now: int,
                           faults: set<nat>, n: nat, storage: map<FileRef, seq<Byte>>)
    ensures var r := SubmitSpec(cfg, fields, uploads, random, now, faults, n, storage);
      && (r.status == 200 || r.status == 500)
      && (r.status == 200 <==> r.queued != [])
      && (r.queued != [] ==> |r.queued| == 1 && r.steps != [] && r.steps[|r.steps| - 1] == Step(SendMessage(cfg.queueUrl, r.queued[0]), true))
  {
  }

  /**
   * Every put completes before the message is sent: when a send is made at
   * all, it is the last call, and before it each upload was read and put
   * successfully, in upload order, at `inputPrefix + id + "/" + name`.
   */
  lemma PutsBeforeSend(cfg: ServerConfig, fields: map<string, string>, uploads: Uploads, random: seq<Byte>, now: int,
                       faults: set<nat>, n: nat, storage: map<FileRef, seq<Byte>>, j: nat)
    requires var r := SubmitSpec(cfg, fields, uploads, random, now, faults, n, storage);
      j < |r.steps| && r.steps[j].call.SendMessage?
    ensures var r := SubmitSpec(cfg, fields, uploads, random, now, faults, n, storage);
      var items := Listed(uploads);
      var id := Hex(random);
      && j == |r.steps| - 1 == 2 * |items|
      && forall i :: 0 <= i < |items| ==>
           && items[i].Some?
           && r.steps[2 * i] == Step(ReadUpload(items[i].value.path), true)
           && r.steps[2 * i + 1] == Step(PutObject(cfg.bucket, cfg.inputPrefix + id + "/" + items[i].value.name, items[i].value.content), true)
  {
    var items := Listed(uploads);
    var id := Hex(random);
    var s := Stores(cfg, id, items, faults, n, storage);
    StoresSendsNothing(cfg, id, items, faults, n, storage);
    if !s.done {
      assert false;
    }
    StoresDone(cfg, id, items, faults, n, storage);
    var r := SubmitSpec(cfg, fields, uploads, random, now, faults, n, storage);
    assert r.steps == s.steps + [r.steps[|r.steps| - 1]];
    forall i | 0 <= i < |items|
      ensures r.steps[2 * i] == s.steps[2 * i] && r.steps[2 * i + 1] == s.steps[2 * i + 1]
    {
    }
  }

  /**
   * The message queued carries every form field unchanged (except those the
   * handler sets), the id, the timestamp, and one `files` entry per upload,
   * in upload order, each at `inputPrefix + id + "/" + name` in the input bucket.
   */
  lemma MessageContents(cfg: ServerConfig, fields: map<string, string>, uploads: Uploads, random: seq<Byte>, now: int,
                        faults: set<nat>, n: nat, storage: map<FileRef, seq<Byte>>)
    requires SubmitSpec(cfg, fields, uploads, random, now, faults, n, storage).queued != []
    ensures var m := SubmitSpec(cfg, fields, uploads, random, now, faults, n, storage).queued[0];
      var items := Listed(uploads);
      && m.Keys == fields.Keys + {"id", "originalTimestamp", "files"}
      && (forall k :: k in fields && k !in {"id", "originalTimestamp", "files"} ==> m[k] == Str(fields[k]))
      && m["id"] == Str(Hex(random)) && m["originalTimestamp"] == Num(now)
      && m["files"].Refs? && |m["files"].refs| == |items|
      && forall i :: 0 <= i < |items| ==> items[i].Some? && m["files"].refs[i] == FileRef(cfg.bucket, cfg.inputPrefix + Hex(random) + "/" + items[i].value.name)
  {
    var s := Stores(cfg, Hex(random), Listed(uploads), faults, n, storage);
    StoresDone(cfg, Hex(random), Listed(uploads), faults, n, storage);
    MessageFields(fields, Hex(random), now, s.refs);
  }

  /** A request answered 200 made every call successfully. */
  lemma SubmittedAllOk(cfg: ServerConfig, fields: map<string, string>, uploads: Uploads, random: seq<Byte>, now: int,
                       faults: set<nat>, n: nat, storage: map<FileRef, seq<Byte>>)
    requires SubmitSpec(cfg, fields, uploads, random, now, faults, n, storage).status == 200
    ensures AllOk(SubmitSpec(cfg, fields, uploads, random, now, faults, n, storage).steps)
  {
    var r := SubmitSpec(cfg, fields, uploads, random, now, faults, n, storage);
    var m := |Listed(uploads)|;
    QueuedIffSubmitted(cfg, fields, uploads, random, now, faults, n, storage);
    PutsBeforeSend(cfg, fields, uploads, random, now, faults, n, storage, |r.steps| - 1);
    assert forall i :: 0 <= i < m ==> r.steps[2 * i].ok && r.steps[2 * i + 1].ok;
    PairsOk(r.steps, m);
  }

  /** Steps that come in successful pairs and end with a successful step all succeeded. */
  lemma PairsOk(steps: seq<Step<Call>>, m: nat)
    requires |steps| == 2 * m + 1 && steps[2 * m].ok
    requires forall i :: 0 <= i < m ==> steps[2 * i].ok && steps[2 * i + 1].ok
    ensures AllOk(steps)
  {
    forall j | 0 <= j < |steps|
      ensures steps[j].ok
    {
      var i := j / 2;
      assert j == 2 * i || j == 2 * i + 1;
    }
  }

  /** A fault anywhere before the send, or in the send, answers 500 and queues nothing. */
  lemma FaultQueuesNothing(cfg: ServerConfig, fields: map<string, string>, uploads: Uploads, random: seq<Byte>, now: int,
                           faults: set<nat>, n: nat, storage: map<FileRef, seq<Byte>>, i: nat)
    requires var r := SubmitSpec(cfg, fields, uploads, random, now, faults, n, storage);
      i < |r.steps| && !r.steps[i].ok
    ensures var r := SubmitSpec(cfg, fields, uploads, random, now, faults, n, storage);
      r.status == 500 && r.queued == [] && Text(r.status) == ErrorText
  {
    if SubmitSpec(cfg, fields, uploads, random, now, faults, n, storage).status == 200 {
      SubmittedAllOk(cfg, fields, uploads, random, now, faults, n, storage);
    }
  }

  /** Without an upload the handler throws before any call and answers 500. */
  lemma MissingUploadFails(cfg: ServerConfig, fields: map<string, string>, random: seq<Byte>, now: int,
                           faults: set<nat>, n: nat, storage: map<FileRef, seq<Byte>>)
    ensures var r := SubmitSpec(cfg, fields, Missing, random, now, faults, n, storage);
      r.steps == [] && r.storage == storage && r.queued == [] && r.status == 500
  {
  }

  /** A request whose upload loop stopped early. */
  lemma SpecHalted(cfg: ServerConfig, fields: map<string, string>, uploads: Uploads, random: seq<Byte>, now: int,
                   faults: set<nat>, n: nat, storage: map<FileRef, seq<Byte>>, s: Stored)
    requires s == Stores(cfg, Hex(random), Listed(uploads), faults, n, storage) && !s.done
    ensures SubmitSpec(cfg, fields, uploads, random, now, faults, n, storage) == Reply(s.steps, s.storage, [], 500)
  {
  }

  /** A request whose upload loop finished, and whose send then succeeded or not. */
  lemma SpecSent(cfg: ServerConfig, fields: map<string, string>, uploads: Uploads, random: seq<Byte>, now: int,
                 faults: set<nat>, n: nat, storage: map<FileRef, seq<Byte>>, s: Stored)
    requires s == Stores(cfg, Hex(random), Listed(uploads), faults, n, storage) && s.done
    ensures var m := Message(fields, Hex(random), now, s.refs);
      var sent := Succeeds(faults, n + |s.steps|);
      SubmitSpec(cfg, fields, uploads, random, now, faults, n, storage)
        == Reply(s.steps + [Step(SendMessage(cfg.queueUrl, m), sent)], s.storage, if sent then [m] else [], if sent then 200 else 500)
  {
  }

  /** The loop's account of itself: `whole` is what it made and pushed so far, then the loop `rest` from here. */
  predicate Accounts(whole: Stored, made: seq<Step<Call>>, refs: seq<FileRef>, rest: Stored) {
    whole == Stored(made + rest.steps, rest.storage, refs + rest.refs, rest.done)
  }

  /** The loop's account of itself when it stops early. */
  lemma Halted(whole: Stored, made: seq<Step<Call>>, refs: seq<FileRef>, rest: Stored)
    requires Accounts(whole, made, refs, rest) && !rest.done
    ensures whole.steps == made + rest.steps && whole.storage == rest.storage && whole.refs == refs + rest.refs && !whole.done
  {
  }

  /** The loop's account of itself after a finished pass `v`, with `next` the loop after it. */
  lemma Advanced(whole: Stored, made: seq<Step<Call>>, refs: seq<FileRef>, rest: Stored, v: Stored, next: Stored)
    requires Accounts(whole, made, refs, rest)
    requires rest == Stored(v.steps + next.steps, next.storage, v.refs + next.refs, next.done)
    ensures Accounts(whole, made + v.steps, refs + v.refs, next)
  {
    AppendAssoc(made, v.steps, next.steps);
    AppendAssoc(refs, v.refs, next.refs);
  }

  /**
   * The loop's account of itself across the pass over `items[i]`: a pass
   * that throws ends the loop with its steps, and a finished one leaves the
   * loop to go on from the next upload after its two calls.
   */
  lemma PassAccounts(cfg: ServerConfig, id: string, items: seq<Option<Upload>>, i: nat, faults: set<nat>, n: nat, storage: map<FileRef, seq<Byte>>,
                     whole: Stored, made: seq<Step<Call>>, refs: seq<FileRef>)
    requires i < |items|
    requires Accounts(whole, made, refs, Stores(cfg, id, items[i..], faults, n, storage))
    ensures var v := Visit(cfg, id, items[i], faults, n, storage);
      if v.done then
        |v.steps| == 2 && Accounts(whole, made + v.steps, refs + v.refs, Stores(cfg, id, items[i + 1..], faults, n + 2, v.storage))
      else
        whole.steps == made + v.steps && whole.storage == v.storage && whole.refs == refs + v.refs && !whole.done
  {
    var v := Visit(cfg, id, items[i], faults, n, storage);
    var rest := Stores(cfg, id, items[i..], faults, n, storage);
    StoresVisit(cfg, id, items, i, faults, n, storage);
    if v.done {
      VisitDone(cfg, id, items[i], faults, n, storage);
      Advanced(whole, made, refs, rest, v, Stores(cfg, id, items[i + 1..], faults, n + 2, v.storage));
    } else {
      Halted(whole, made, refs, rest);
    }
  }

  // ---------------------------------------------------------------- the server

  /** What the web server changes: its log of calls, the input bucket, and the job queue. */
  class Backend {
    var log: seq<Step<Call>>
    var storage: map<FileRef, seq<Byte>>
    /** The messages sent to `config.queue.url`, in order. */
    var queue: seq<Params>
    const faults: set<nat>

    constructor(faults: set<nat>, storage: map<FileRef, seq<Byte>>)
      ensures this.faults == faults && this.storage == storage && log == [] && queue == []
    {
      this.faults := faults;
      this.storage := storage;
      log := [];
      queue := [];
    }

    /** `await c`: the call is made at the next log position and throws when that position faults. */
    method Await(c: Call) returns (ok: bool)
      modifies this`log
      ensures ok == Succeeds(faults, |old(log)|)
      ensures log == old(log) + [Step(c, ok)]
    {
      ok := Succeeds(faults, |log|);
      log := log + [Step(c, ok)];
    }

    /**
     * The `for...of` loop over the uploads, from reading the first file to
     * the last put: the entries it pushed onto `params.files`, and whether it
     * finished without throwing.
     */
    method PutAll(cfg: ServerConfig, id: string, items: seq<Option<Upload>>) returns (done: bool, refs: seq<FileRef>)
      modifies this`log, this`storage
      ensures var s := Stores(cfg, id, items, faults, |old(log)|, old(storage));
        && log == old(log) + s.steps && storage == s.storage && refs == s.refs && done == s.done
    {
      refs := [];
      ghost var log0 := log;
      ghost var whole := Stores(cfg, id, items, faults, |log|, storage);
      assert whole == Stores(cfg, id, items, faults, |old(log)|, old(storage));
      ghost var made: seq<Step<Call>> := [];
      var i := 0;
      while i < |items|
        invariant i <= |items|
        invariant log == log0 + made
        invariant Accounts(whole, made, refs, Stores(cfg, id, items[i..], faults, |log|, storage))
      {
        ghost var n, before := |log|, storage;
        ghost var v := Visit(cfg, id, items[i], faults, n, before);
        PassAccounts(cfg, id, items, i, faults, n, before, whole, made, refs);
        var ok, pushed := PutOne(cfg, id, items[i]);
        AppendAssoc(log0, made, v.steps);
        if !ok {
          return false, refs + pushed;
        }
        refs := refs + pushed;
        made := made + v.steps;
        i := i + 1;
      }
      assert items[i..] == [];
      return true, refs;
    }

    /** One pass of the `for...of` loop: `file.path` of a missing upload throws, then `fs.readFile`, `params.files.push`, `s3.putObject`. */
    method PutOne(cfg: ServerConfig, id: string, item: Option<Upload>) returns (ok: bool, pushed: seq<FileRef>)
      modifies this`log, this`storage
      ensures var v := Visit(cfg, id, item, faults, |old(log)|, old(storage));
        && log == old(log) + v.steps && storage == v.storage && ok == v.done && pushed == v.refs
    {
      if item.None? {
        return false, [];
      }
      var u := item.value;
      var ref := Entry(cfg, id, u);
      var read := Await(ReadUpload(u.path));
      if !read {
        return false, [];
      }
      pushed := [ref];
      var put := Await(PutObject(ref.bucket, ref.key, u.content));
      AppendAssoc(old(log), [Step(ReadUpload(u.path), true)], [Step(PutObject(ref.bucket, ref.key, u.content), put)]);
      if !put {
        return false, pushed;
      }
      storage := storage[ref := u.content];
      ok := true;
    }

    /** `app.post('/submit', ...)`, answering `status` with the text `reply`. */
    method Submit(cfg: ServerConfig, fields: map<string, string>, uploads: Uploads, random: seq<Byte>, now: int)
      returns (status: int, reply: string)
      requires |random| == 16
      modifies this`log, this`storage, this`queue
      ensures var r := SubmitSpec(cfg, fields, uploads, random, now, faults, |old(log)|, old(storage));
        && log == old(log) + r.steps
        && storage == r.storage
        && queue == old(queue) + r.queued
        && status == r.status && reply == Text(status)
    {
      var id := Hex(random);
      var done, refs := PutAll(cfg, id, Listed(uploads));
      ghost var s := Stores(cfg, id, Listed(uploads), faults, |old(log)|, old(storage));
      if !done {
        SpecHalted(cfg, fields, uploads, random, now, faults, |old(log)|, old(storage), s);
        return 500, ErrorText;
      }
      SpecSent(cfg, fields, uploads, random, now, faults, |old(log)|, old(storage), s);
      var m := Message(fields, id, now, refs);
      var sent := Await(SendMessage(cfg.queueUrl, m));
      if !sent {
        return 500, ErrorText;
      }
      queue := queue + [m];
      return 200, SubmittedText;
    }
  }
}
