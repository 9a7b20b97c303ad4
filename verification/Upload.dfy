// The resumable upload to Drive: the chunk loop against a server that keeps a growing prefix of
// the file and may lose any answer.
module Upload {
  import opened Wrappers
  import opened Text

  const CHUNK_SIZE: nat := 8 * 1024 * 1024
  const RETRY_LIMIT: nat := 5
  const U64: nat := 0x1_0000_0000_0000_0000

  datatype UploadError =
    | Cancelled | SourceUnavailable | InvalidRange | InvalidMetadata | StoppedAdvancing | RetryLimitReached
    | Rejected | ConnectionFailed | EndedWithoutMetadata | StatusRequestFailed | SessionGone

  datatype Metadata = Metadata(id: string)

  // Success carries the file's metadata if it is readable; Incomplete (308) carries the Range
  // header; Lost is a transport error.
  datatype Reply = Success(file: Option<Metadata>) | Incomplete(range: Option<string>) | ServerError | Refused | Lost

  // One chunk as sent, with the stored length at that moment.
  datatype Chunk = Chunk(first: nat, last: nat, size: nat, body: seq<bv8>, storedBefore: nat)

  // One answer as received: to a chunk, with the stored length before and after it, or to the
  // question where to go on.
  datatype Answer = ToChunk(before: nat, after: nat, reply: Reply) | ToQuery(reply: Reply)

  // ---- Giving up ----------------------------------------------------------------------------

  // Chunks in a row that the server did not keep any of, or whose fate only a status request told.
  ghost function Failures(answers: seq<Answer>): nat
  {
    if answers == [] then 0
    else
      var before := Failures(answers[..|answers| - 1]);
      match answers[|answers| - 1]
      case ToQuery(_) => before
      case ToChunk(from, to, reply) => if reply.Incomplete? && from < to then 0 else before + 1
  }

  lemma FailuresAfter(answers: seq<Answer>, a: Answer)
    ensures Failures(answers + [a])
            == if a.ToQuery? then Failures(answers)
               else if a.reply.Incomplete? && a.before < a.after then 0 else Failures(answers) + 1
  {
    assert (answers + [a])[..|answers|] == answers;
  }

  // The Range header cannot be read.
  ghost predicate Unreadable(reply: Reply, total: nat)
  {
    reply.Incomplete? && AcknowledgedOffset(reply.range, total).Err?
  }

  // What the last answer was when an upload, or a status request, ended with this.
  ghost predicate EndsWith(last: Answer, total: nat, r: Result<Metadata, UploadError>)
  {
    match r
    case Ok(file) => last.reply == Success(Some(file))
    case Err(InvalidMetadata) => last.reply == Success(None)
    case Err(InvalidRange) => Unreadable(last.reply, total)
    case Err(Rejected) => last.ToChunk? && last.reply.Refused?
    case Err(StoppedAdvancing) => last.ToChunk? && last.reply.Incomplete? && last.before == last.after
    case Err(RetryLimitReached) => last.ToChunk? && last.reply.ServerError?
    case Err(ConnectionFailed) => last.ToChunk? && last.reply.Lost?
    case Err(StatusRequestFailed) => last.ToQuery? && last.reply.Lost?
    case Err(SessionGone) => last.ToQuery? && (last.reply.ServerError? || last.reply.Refused?)
    case Err(_) => false
  }

  predicate GivesUp(e: UploadError)
  {
    e == StoppedAdvancing || e == RetryLimitReached || e == ConnectionFailed
  }

  // The trouble with the source, or the answer, that ended the upload. The loop gives up only at
  // the sixth failure in a row.
  ghost predicate Cause(answers: seq<Answer>, sent: nat, total: nat, trouble: nat -> Option<UploadError>,
                        r: Result<Metadata, UploadError>)
  {
    if r.Err? && (r.error == Cancelled || r.error == SourceUnavailable) then trouble(sent + 1) == Some(r.error)
    else if r == Err(EndedWithoutMetadata) then
      answers == [] || answers[|answers| - 1].reply.Incomplete?
    else EndedBy(answers, total, r)
  }

  ghost predicate EndedBy(answers: seq<Answer>, total: nat, r: Result<Metadata, UploadError>)
  {
    && answers != [] && EndsWith(answers[|answers| - 1], total, r)
    && (r.Err? && GivesUp(r.error) ==> Failures(answers) == RETRY_LIMIT + 1)
  }

  // ---- The Range header ---------------------------------------------------------------------

  // What the server says of n stored bytes.
  function RangeHeader(n: nat): Option<string>
  {
    if n == 0 then None else Some("bytes=0-" + Decimal(n - 1))
  }

  function AcknowledgedOffset(range: Option<string>, total: nat): (offset: Result<nat, UploadError>)
    ensures offset.Ok? ==> offset.value <= total
  {
    if range.None? then Ok(0)
    else
      var raw := Trim(range.value);
      if !("bytes=" <= raw) then Err(InvalidRange)
      else
        var ends := SplitOnce(raw[6..], '-');
        if ends.None? then Err(InvalidRange)
        else
          var end := ParseUnsigned(ends.value.1, U64);
          if end.None? then Err(InvalidRange)
          else
            var next := if end.value + 1 < U64 then end.value + 1 else U64 - 1;
            Ok(if next < total then next else total)
  }

  lemma OnlyInvalidRange(range: Option<string>, total: nat)
    ensures var offset := AcknowledgedOffset(range, total); offset.Err? ==> offset.error == InvalidRange
  {
  }

  // Reading the header gives back the stored length.
  lemma AcknowledgedIsStored(n: nat, total: nat)
    requires n <= total < U64
    ensures AcknowledgedOffset(RangeHeader(n), total) == Ok(n)
  {
    if n > 0 {
      var raw, digits := RangeHeader(n).value, Decimal(n - 1);
      assert Trimmed(raw) by { assert raw[|raw| - 1] == digits[|digits| - 1]; }
      TrimResult(raw);
      assert raw[6..] == "0" + ['-'] + digits;
      SplitOnceAt("0", digits, '-');
      assert IsDigit(digits[0]);
      DigitsParse(digits, U64);
    }
  }

  // ---- The server ---------------------------------------------------------------------------

  class DriveServer {
    const total: nat
    var stored: seq<bv8>
    var issued: Option<Metadata>
    ghost var chunks: seq<Chunk>
    ghost var answers: seq<Answer>

    constructor (total: nat)
      ensures this.total == total && stored == [] && issued == None && chunks == [] && answers == []
    {
      this.total := total;
      stored, issued := [], None;
      chunks, answers := [], [];
    }

    // The answers a server in this state may give; any of them can get lost, and a Range
    // header names the stored length or is unreadable.
    ghost predicate Honest(r: Reply)
      reads this
    {
      && (r.Incomplete? ==> r.range == RangeHeader(|stored|) || AcknowledgedOffset(r.range, total).Err?)
      && (r.Success? ==> |stored| == total && (r.file.Some? ==> issued == r.file))
    }

    method Answer() returns (r: Reply)
      modifies `issued
      ensures Honest(r)
    {
      r := Lost;
      if |stored| == total {
        if * {
          issued := Some(Metadata("file"));
          r := Success(issued);
        } else if * {
          r := Success(None);
        }
      }
      if r == Lost {
        if * {
          r := Incomplete(RangeHeader(|stored|));
        } else if * {
          TrimResult("garbled");
          r := Incomplete(Some("garbled"));
        } else if * {
          r := ServerError;
        } else if * {
          r := Refused;
        }
      }
    }

    // Keeps some prefix of a chunk that starts where the stored bytes end.
    method Put(first: nat, last: nat, size: nat, body: seq<bv8>) returns (r: Reply)
      requires first <= last < size == total && |body| == last - first + 1
      modifies this
      ensures first == |old(stored)| ==> old(stored) <= stored <= old(stored) + body
      ensures first != |old(stored)| ==> stored == old(stored)
      ensures chunks == old(chunks) + [Chunk(first, last, size, body, |old(stored)|)]
      ensures answers == old(answers) + [ToChunk(|old(stored)|, |stored|, r)]
      ensures Honest(r)
    {
      chunks := chunks + [Chunk(first, last, size, body, |stored|)];
      if first == |stored| {
        var taken: nat :| taken <= |body|;
        stored := stored + body[..taken];
      }
      r := Answer();
      answers := answers + [ToChunk(|old(stored)|, |stored|, r)];
    }

    // The status request of an interrupted upload.
    method Query() returns (r: Reply)
      modifies `issued, `answers
      ensures Honest(r) && answers == old(answers) + [ToQuery(r)]
    {
      r := Answer();
      answers := answers + [ToQuery(r)];
    }
  }

  // ---- The client ---------------------------------------------------------------------------

  datatype Position = Offset(offset: nat) | Complete(file: Metadata)

  // An offset comes from a 308, and the end of the upload from the answer that ends it.
  ghost predicate QueryEnds(last: Answer, total: nat, r: Result<Position, UploadError>)
  {
    if r.Ok? && r.value.Offset? then last.reply.Incomplete?
    else EndsWith(last, total, if r.Ok? then Ok(r.value.file) else Err(r.error))
  }

  // query_drive_offset: a transport error here ends the upload at once.
  method QueryDriveOffset(server: DriveServer) returns (r: Result<Position, UploadError>)
    requires |server.stored| <= server.total < U64
    modifies server`issued, server`answers
    ensures r.Ok? && r.value.Offset? ==> r.value.offset == |server.stored|
    ensures r.Ok? && r.value.Complete? ==> |server.stored| == server.total && server.issued == Some(r.value.file)
    ensures exists reply ::
              && server.answers == old(server.answers) + [ToQuery(reply)]
              && QueryEnds(ToQuery(reply), server.total, r)
  {
    var reply := server.Query();
    match reply
    case Lost => r := Err(StatusRequestFailed);
    case Success(file) => r := if file.Some? then Ok(Complete(file.value)) else Err(InvalidMetadata);
    case Incomplete(range) =>
      AcknowledgedIsStored(|server.stored|, server.total);
      OnlyInvalidRange(range, server.total);
      var offset := AcknowledgedOffset(range, server.total);
      r := if offset.Ok? then Ok(Offset(offset.value)) else Err(offset.error);
    case _ => r := Err(SessionGone);
  }

  // Every chunk is the slice of the file its range names, and starts at the stored length.
  ghost predicate Faithful(file: seq<bv8>, c: Chunk)
  {
    && c.first <= c.last < c.size == |file| && c.last - c.first < CHUNK_SIZE
    && (c.last - c.first + 1 == CHUNK_SIZE || c.last + 1 == |file|)
    && c.body == file[c.first..c.last + 1] && c.first == c.storedBefore
  }

  ghost predicate AllFaithful(file: seq<bv8>, chunks: seq<Chunk>)
  {
    forall k :: 0 <= k < |chunks| ==> Faithful(file, chunks[k])
  }

  // How many more chunks the loop may send.
  ghost function Budget(remaining: nat, failures: nat): int
  {
    6 * remaining + (RETRY_LIMIT + 1 - failures)
  }

  // The source file as read during one round: cancelled, unreadable, or fine.
  method ReadChunk(file: seq<bv8>, offset: nat, len: nat, trouble: Option<UploadError>)
      returns (r: Result<seq<bv8>, UploadError>)
    requires offset + len <= |file|
             && (trouble.Some? ==> trouble.value == Cancelled || trouble.value == SourceUnavailable)
    ensures r.Ok? ==> r.value == file[offset..offset + len]
    ensures r.Err? ==> trouble == Some(r.error)
  {
    if trouble.Some? { return Err(trouble.value); }
    r := Ok(file[offset..offset + len]);
  }

  // What holds between rounds.
  ghost predicate Uploading(file: seq<bv8>, server: DriveServer)
    reads server
  {
    && server.total == |file| < U64 && server.stored <= file && AllFaithful(file, server.chunks)
  }

  // One round: the next slice of the file goes out with its Content-Range.
  method SendChunk(file: seq<bv8>, server: DriveServer, offset: nat, chunk: seq<bv8>) returns (r: Reply)
    requires Uploading(file, server) && offset == |server.stored|
    requires 0 < |chunk| <= CHUNK_SIZE && offset + |chunk| <= |file| && chunk == file[offset..offset + |chunk|]
    requires |chunk| == CHUNK_SIZE || offset + |chunk| == |file|
    modifies server
    ensures Uploading(file, server) && offset <= |server.stored| && server.Honest(r)
    ensures |server.chunks| == |old(server.chunks)| + 1
    ensures server.answers == old(server.answers) + [ToChunk(offset, |server.stored|, r)]
  {
    assert server.stored + chunk <= file;
    r := server.Put(offset, offset + |chunk| - 1, |file|, chunk);
  }

  // After a 308: the acknowledged offset, and the failures so far.
  method Acknowledge(server: DriveServer, range: Option<string>, offset: nat, failures: nat)
    returns (r: Result<nat, UploadError>, after: nat)
    requires offset <= |server.stored| <= server.total < U64 && failures <= RETRY_LIMIT
             && server.Honest(Incomplete(range))
    ensures r.Ok? ==> r.value == |server.stored| && after <= RETRY_LIMIT
    ensures r.Ok? ==> if r.value == offset then after == failures + 1 else after == 0
    ensures r.Err? ==>
              if Unreadable(Incomplete(range), server.total) then r.error == InvalidRange
              else r.error == StoppedAdvancing && offset == |server.stored| && failures == RETRY_LIMIT
  {
    AcknowledgedIsStored(|server.stored|, server.total);
    OnlyInvalidRange(range, server.total);
    r, after := AcknowledgedOffset(range, server.total), failures;
    if r.Ok? {
      if r.value <= offset {
        after := SaturatingNext(failures);
        if after > RETRY_LIMIT { r := Err(StoppedAdvancing); }
      } else {
        after := 0;
      }
    }
  }

  // After a server or transport error: ask where to go on, unless that was one too many.
  method Recover(server: DriveServer, failures: nat, exhausted: UploadError)
      returns (r: Result<Position, UploadError>, after: nat)
    requires |server.stored| <= server.total < U64 && failures <= RETRY_LIMIT
    modifies server`issued, server`answers
    ensures r.Ok? ==> after == failures + 1 <= RETRY_LIMIT
    ensures if failures == RETRY_LIMIT then r == Err(exhausted) && server.answers == old(server.answers)
            else exists reply ::
              && server.answers == old(server.answers) + [ToQuery(reply)]
              && QueryEnds(ToQuery(reply), server.total, r)
    ensures r.Ok? && r.value.Offset? ==> r.value.offset == |server.stored|
    ensures r.Ok? && r.value.Complete? ==> |server.stored| == server.total && server.issued == Some(r.value.file)
  {
    after := SaturatingNext(failures);
    if after > RETRY_LIMIT { return Err(exhausted), after; }
    r := QueryDriveOffset(server);
  }

  // The loop goes on from the stored length, after progress or one failure more.
  ghost predicate GoesOn(server: DriveServer, offset: nat, failures: nat, offset': nat, failures': nat)
    reads server
  {
    && offset' == |server.stored| && failures' == Failures(server.answers) <= RETRY_LIMIT
    && server.answers != [] && server.answers[|server.answers| - 1].reply.Incomplete?
    && (offset' > offset || (offset' == offset && failures' == failures + 1))
  }

  ghost predicate Ended(server: DriveServer, r: Result<Metadata, UploadError>)
    reads server
  {
    && EndedBy(server.answers, server.total, r)
    && (r.Ok? ==> |server.stored| == server.total && server.issued == Some(r.value))
  }

  // What a 308 leads to.
  method TakeIncomplete(server: DriveServer, ghost heard: seq<Answer>, range: Option<string>, offset: nat,
                        failures: nat)
    returns (done: Option<Result<Metadata, UploadError>>, offset': nat, failures': nat)
    requires offset <= |server.stored| <= server.total < U64 && server.Honest(Incomplete(range))
    requires server.answers == heard + [ToChunk(offset, |server.stored|, Incomplete(range))]
    requires failures == Failures(heard) <= RETRY_LIMIT
    ensures if done.Some? then Ended(server, done.value) else GoesOn(server, offset, failures, offset', failures')
  {
    FailuresAfter(heard, ToChunk(offset, |server.stored|, Incomplete(range)));
    var acknowledged, after := Acknowledge(server, range, offset, failures);
    if acknowledged.Err? { return Some(Err(acknowledged.error)), offset, failures; }
    done, offset', failures' := None, acknowledged.value, after;
  }

  // What a server or transport error leads to: a status request, unless it was one too many.
  method TakeFailure(server: DriveServer, ghost heard: seq<Answer>, reply: Reply, offset: nat, failures: nat)
    returns (done: Option<Result<Metadata, UploadError>>, offset': nat, failures': nat)
    requires offset <= |server.stored| <= server.total < U64 && (reply.Lost? || reply.ServerError?)
    requires server.answers == heard + [ToChunk(offset, |server.stored|, reply)]
    requires failures == Failures(heard) <= RETRY_LIMIT
    modifies server`issued, server`answers
    ensures if done.Some? then Ended(server, done.value) else GoesOn(server, offset, failures, offset', failures')
  {
    FailuresAfter(heard, ToChunk(offset, |server.stored|, reply));
    var exhausted := if reply.Lost? then ConnectionFailed else RetryLimitReached;
    var position, after := Recover(server, failures, exhausted);
    AskedAfter(heard, ToChunk(offset, |server.stored|, reply), server.answers);
    if position.Err? { return Some(Err(position.error)), offset, failures; }
    if position.value.Complete? { return Some(Ok(position.value.file)), offset, failures; }
    done, offset', failures' := None, position.value.offset, after;
  }

  // What an answer to a chunk leads to.
  method TakeReply(server: DriveServer, ghost heard: seq<Answer>, reply: Reply, offset: nat, failures: nat)
    returns (done: Option<Result<Metadata, UploadError>>, offset': nat, failures': nat)
    requires offset <= |server.stored| <= server.total < U64 && server.Honest(reply)
    requires server.answers == heard + [ToChunk(offset, |server.stored|, reply)]
    requires failures == Failures(heard) <= RETRY_LIMIT
    modifies server`issued, server`answers
    ensures if done.Some? then Ended(server, done.value) else GoesOn(server, offset, failures, offset', failures')
  {
    offset', failures' := offset, failures;
    match reply {
      case Success(metadata) => done := Some(if metadata.Some? then Ok(metadata.value) else Err(InvalidMetadata));
      case Incomplete(range) => done, offset', failures' := TakeIncomplete(server, heard, range, offset, failures);
      case Refused => done := Some(Err(Rejected));
      case _ => done, offset', failures' := TakeFailure(server, heard, reply, offset, failures);
    }
  }

  // upload_drive_chunks, with the trouble of each round given.
  method UploadDriveChunks(file: seq<bv8>, server: DriveServer, trouble: nat -> Option<UploadError>)
    returns (r: Result<Metadata, UploadError>)
    requires |file| == server.total < U64 && server.stored == [] && server.chunks == [] && server.answers == []
    requires forall n :: trouble(n).Some? ==> trouble(n).value == Cancelled || trouble(n).value == SourceUnavailable
    modifies server
    ensures server.stored <= file
    ensures AllFaithful(file, server.chunks)
    ensures r.Ok? ==> server.stored == file && server.issued == Some(r.value)
    ensures r == Err(EndedWithoutMetadata) ==> server.stored == file
    ensures |server.chunks| <= Budget(|file|, 0)
    ensures Cause(server.answers, |server.chunks|, |file|, trouble, r)
  {
    var total := |file|;
    var offset: nat, failures: nat, chunkIndex: nat := 0, 0, 0;
    while offset < total
      invariant Uploading(file, server) && offset == |server.stored|
      invariant chunkIndex == |server.chunks| <= Budget(total, 0) - Budget(total - offset, failures)
      invariant failures == Failures(server.answers) <= RETRY_LIMIT
      invariant server.answers == [] || server.answers[|server.answers| - 1].reply.Incomplete?
      decreases total - offset, RETRY_LIMIT - failures
    {
      chunkIndex := chunkIndex + 1;
      var len := if total - offset < CHUNK_SIZE then total - offset else CHUNK_SIZE;
      var chunk := ReadChunk(file, offset, len, trouble(chunkIndex));
      if chunk.Err? { return Err(chunk.error); }
      ghost var heard := server.answers;
      var reply := SendChunk(file, server, offset, chunk.value);
      var done;
      done, offset, failures := TakeReply(server, heard, reply, offset, failures);
      if done.Some? { return done.value; }
    }
    r := Err(EndedWithoutMetadata);
  }

  // Asking where to go on counts as no failure of its own.
  lemma AskedAfter(heard: seq<Answer>, a: Answer, answers: seq<Answer>)
    ensures forall reply :: answers == heard + [a] + [ToQuery(reply)] ==> Failures(answers) == Failures(heard + [a])
  {
    forall reply | answers == heard + [a] + [ToQuery(reply)] ensures Failures(answers) == Failures(heard + [a]) {
      FailuresAfter(heard + [a], ToQuery(reply));
    }
  }

  // The failures are counted in a byte.
  function SaturatingNext(failures: nat): nat
  {
    if failures < 255 then failures + 1 else 255
  }
}
