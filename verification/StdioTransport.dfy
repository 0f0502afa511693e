/** StdioTransport: lines written to a child's stdin, lines read off its stdout. */
module StdioTransports {
  import opened Prelude
  import opened JsonValues
  import opened JsonRpc
  import opened Ndjson
  import opened ClientProtocol

  datatype Process = NotStarted | Running | Exited

  datatype Pipe = Pipe(process: Process, closed: bool, stdin: string, inbox: seq<Item>)

  /** The messages among decoded lines; an unreadable one is reported and skipped. */
  function Readable(lines: seq<Result<Json, string>>): seq<Item> {
    if lines == [] then []
    else (if lines[0].Ok? then [Incoming(lines[0].value)] else []) + Readable(lines[1..])
  }

  /** The write fails although poll() just said the process runs. */
  datatype Written = Through | Broken

  /** One line of output: blank and unreadable ones put nothing. */
  function ReadLine(line: string): seq<Item> {
    if Strip(line) != "" && Decode(line).Ok? then [Incoming(Decode(line).value)] else []
  }

  lemma MoveOver<T>(a: seq<T>, b: seq<T>, c: seq<T>)
    ensures a + (b + c) == (a + b) + c
  {
  }

  class StdioTransport {
    var process: Process
    var closed: bool
    var stdin: string
    var inbox: seq<Item>

    ghost function State(): Pipe
      reads this
    {
      Pipe(process, closed, stdin, inbox)
    }

    constructor ()
      ensures State() == Pipe(NotStarted, false, "", [])
    {
      process := NotStarted;
      closed := false;
      stdin := "";
      inbox := [];
    }

    method Start() returns (ok: bool)
      modifies this
      ensures ok == old(process).NotStarted?
      ensures State() == if ok then old(State()).(process := Running) else old(State())
    {
      ok := process.NotStarted?;
      if ok {
        process := Running;
      }
    }

    /** Decode lines onto the inbox until the end of the output, then put the marker. */
    method ReadLoop(stdout: string)
      modifies this
      ensures State() == old(State()).(inbox := old(inbox) + Readable(ReadStream(stdout)) + [Eof])
    {
      hide ReadStream, Decode, Strip, Readable;
      var rest := stdout;
      ghost var done: seq<Item> := [];
      while rest != ""
        invariant State() == old(State()).(inbox := old(inbox) + done)
        invariant done + Readable(ReadStream(rest)) == Readable(ReadStream(stdout))
        decreases |rest|
      {
        StreamSplits(rest);
        var n := LineLength(rest);
        var items := ReadLine(rest[..n]);
        MoveOver(done, items, Readable(ReadStream(if n == |rest| then "" else AfterEol(rest[n..]))));
        inbox := inbox + items;
        done := done + items;
        rest := if n == |rest| then "" else AfterEol(rest[n..]);
      }
      NothingLeft();
      inbox := inbox + [Eof];
    }

    method Send(message: Json, written: Written) returns (ok: bool)
      modifies this
      ensures ok == (process.Running? && written.Through?)
      ensures State() == if ok then old(State()).(stdin := old(stdin) + (Encode(message) + "\n")) else old(State())
    {
      if !process.Running? || written.Broken? {
        return false;
      }
      stdin := stdin + (Encode(message) + "\n");
      return true;
    }

    /** Close stdin, wait or kill, and unblock every receiver. */
    method Close()
      modifies this
      ensures closed && (old(closed) ==> State() == old(State()))
      ensures !old(closed) && old(process).NotStarted? ==> State() == old(State()).(closed := true)
      ensures !old(closed) && !old(process).NotStarted? ==>
                State() == old(State()).(closed := true, process := Exited, inbox := old(inbox) + [Eof])
    {
      if closed {
        return;
      }
      closed := true;
      if process.NotStarted? {
        return;
      }
      process := Exited;
      inbox := inbox + [Eof];
    }

    method Receive() returns (item: Option<Json>)
      requires inbox != []
      modifies this
      ensures item == (if old(inbox)[0].Eof? then None else Some(old(inbox)[0].raw))
      ensures State() == old(State()).(inbox := Rest(old(inbox)))
    {
      var head := inbox[0];
      inbox := inbox[1..];
      if head.Eof? {
        inbox := inbox + [Eof];
        return None;
      }
      return Some(head.raw);
    }
  }

  lemma StreamSplits(text: string)
    requires text != ""
    ensures var n := LineLength(text);
            var next := if n == |text| then "" else AfterEol(text[n..]);
            && |next| < |text|
            && Readable(ReadStream(text)) == ReadLine(text[..n]) + Readable(ReadStream(next))
  {
    var n := LineLength(text);
    var next := if n == |text| then "" else AfterEol(text[n..]);
    var here := if Strip(text[..n]) == "" then [] else [Decode(text[..n])];
    assert ReadStream(text) == here + ReadStream(next);
    hide ReadStream, Decode, Strip;
    if here == [] {
      assert here + ReadStream(next) == ReadStream(next);
    } else {
      assert (here + ReadStream(next))[1..] == ReadStream(next);
    }
  }

  lemma NothingLeft()
    ensures Readable(ReadStream("")) == []
  {
  }

  lemma {:induction false} AllReadable(lines: seq<Result<Json, string>>)
    requires forall i :: 0 <= i < |lines| ==> lines[i].Ok?
    ensures |Readable(lines)| == |lines| && forall i :: 0 <= i < |lines| ==> Readable(lines)[i] == Incoming(lines[i].value)
  {
    if lines != [] {
      AllReadable(lines[1..]);
    }
  }

  /** What a peer writes as messages, one to a line, arrives as those messages and nothing
      else, in order. */
  lemma PipeDelivers(messages: seq<Json>, eol: string)
    requires forall i :: 0 <= i < |messages| ==> WellFormed(messages[i]) && messages[i].Obj?
    requires eol == "\n" || eol == "\r\n"
    ensures var items := Readable(ReadStream(WriteStream(messages, eol)));
            |items| == |messages| && forall i :: 0 <= i < |messages| ==> items[i] == Incoming(messages[i])
  {
    hide ReadStream, WriteStream, WellFormed;
    StreamRoundTrip(messages, eol);
    AllReadable(ReadStream(WriteStream(messages, eol)));
  }
}
