/**
 The buffering response writer (mcpmw/envelope.go). For every sequence of calls a handler makes, the
 client sees the handler's own response, or a JSON-RPC error in its place, and never part of each.
 */
module Envelope {
  import opened Wrappers
  import opened Text

  /** What a handler does with its response writer. */
  datatype Call = SetContentType(value: string) | WriteHeader(status: int) | Write(data: string) | Flush

  /** What reaches the underlying writer. */
  datatype Out = Header(status: int) | Body(data: string) | Flushed

  class ResponseWriter {
    var out: seq<Out>

    constructor ()
      ensures out == []
    {
      out := [];
    }

    method Send(o: Out)
      modifies this
      ensures out == old(out) + [o]
    {
      out := out + [o];
    }
  }

  /** net/http: the last word on the status is the first one that is not informational. */
  predicate Informational(status: int) {
    100 <= status < 200 && status != 101
  }

  function FinalStatus(out: seq<Out>): Option<int> {
    if out == [] then None
    else match out[0]
      case Body(_) => Some(200)
      case Header(status) => if Informational(status) then FinalStatus(out[1..]) else Some(status)
      case Flushed => FinalStatus(out[1..])
  }

  function BodyOf(out: seq<Out>): string {
    if out == [] then ""
    else if out[0].Body? then out[0].data + BodyOf(out[1..])
    else BodyOf(out[1..])
  }

  function AsOut(call: Call): Out
    requires !call.SetContentType?
  {
    match call
    case WriteHeader(status) => Header(status)
    case Write(data) => Body(data)
    case Flush => Flushed
  }

  /** The calls as they would reach the underlying writer without the middleware. */
  function Direct(calls: seq<Call>): seq<Out> {
    if calls == [] then []
    else if calls[0].SetContentType? then Direct(calls[1..])
    else [AsOut(calls[0])] + Direct(calls[1..])
  }

  // The buffering writer as a machine ------------------------------------------------------------

  datatype Writer = Writer(contentType: string, statusCode: int, body: string, passthrough: bool, out: seq<Out>)

  const NEW := Writer("", 0, "", false, [])

  function FlushAll(w: Writer): Writer {
    if w.passthrough then w
    else
      w.(passthrough := true,
      out := w.out + (if w.statusCode != 0 then [Header(w.statusCode)] else [])
      + (if w.body != "" then [Body(w.body)] else []),
      body := "")
  }

  predicate Streams(status: int, contentType: string) {
    status < 400 || "text/event-stream" <= contentType
  }

  function OnWriteHeader(w: Writer, status: int): Writer {
    if w.passthrough then w.(out := w.out + [Header(status)])
    else if w.statusCode != 0 then w
    else
      var v := w.(statusCode := status);
      if Streams(status, w.contentType) then FlushAll(v) else v
  }

  function OnWrite(w: Writer, data: string): Writer {
    var v := if !w.passthrough && w.statusCode == 0 then OnWriteHeader(w, 200) else w;
    if v.passthrough then v.(out := v.out + [Body(data)]) else v.(body := v.body + data)
  }

  function OnCall(w: Writer, call: Call): Writer {
    match call
    case SetContentType(value) => if w.passthrough then w else w.(contentType := value)
    case WriteHeader(status) => OnWriteHeader(w, status)
    case Write(data) => OnWrite(w, data)
    case Flush => if w.passthrough then w.(out := w.out + [Flushed]) else w
  }

  function OnCalls(w: Writer, calls: seq<Call>): Writer
    decreases |calls|
  {
    if calls == [] then w else OnCalls(OnCall(w, calls[0]), calls[1..])
  }

  // Rewriting ------------------------------------------------------------------------------------

  predicate OccursAt(text: string, part: string, i: nat) {
    i + |part| <= |text| && text[i..i + |part|] == part
  }

  predicate Contains(text: string, part: string) {
    exists i :: 0 <= i <= |text| && OccursAt(text, part, i)
  }

  datatype RpcError = RpcError(code: int, message: string, data: string)

  function MapSDKError(text: string): Option<RpcError> {
    if "malformed payload:" <= text then Some(RpcError(-32700, "Parse error", text))
    else if Contains(text, "JSON RPC not handled") then Some(RpcError(-32601, "Method not found", text))
    else if Contains(text, "missing required") || Contains(text, "missing id") || Contains(text, "unexpected id") then
      Some(RpcError(-32600, "Invalid request", text))
    else None
  }

  predicate ShouldRewrite(w: Writer) {
    !w.passthrough && w.statusCode == 400 && "text/plain" <= w.contentType
  }

  /** The payload that replaces the response, if it is to be replaced; `marshal` prints the error for the request. */
  function Replacement(w: Writer, marshal: RpcError -> Option<string>): Option<string> {
    if !ShouldRewrite(w) then None
    else match MapSDKError(TrimSpace(w.body))
      case None => None
      case Some(error) => marshal(error)
  }

  /** What the underlying writer has received when the POST is over. */
  function Serve(calls: seq<Call>, marshal: RpcError -> Option<string>): seq<Out> {
    var w := OnCalls(NEW, calls);
    match Replacement(w, marshal)
    case None => FlushAll(w).out
    case Some(payload) => w.out + [Header(200), Body(payload)]
  }

  class BufferedResponseWriter {
    const underlying: ResponseWriter
    var contentType: string
    var statusCode: int
    var body: string
    var passthrough: bool

    ghost function View(): Writer
      reads this, underlying
    {
      Writer(contentType, statusCode, body, passthrough, underlying.out)
    }

    constructor (underlying: ResponseWriter)
      requires underlying.out == []
      ensures this.underlying == underlying && View() == NEW
    {
      this.underlying := underlying;
      contentType, statusCode, body, passthrough := "", 0, "", false;
    }

    method FlushBuffer()
      modifies this, underlying
      ensures View() == FlushAll(old(View()))
    {
      if passthrough {
        return;
      }
      passthrough := true;
      if statusCode != 0 {
        underlying.Send(Header(statusCode));
      }
      if |body| > 0 {
        underlying.Send(Body(body));
        body := "";
      }
    }

    method DoWriteHeader(status: int)
      modifies this, underlying
      ensures View() == OnWriteHeader(old(View()), status)
    {
      if passthrough {
        underlying.Send(Header(status));
        return;
      }
      if statusCode != 0 {
        return;
      }
      statusCode := status;
      if status < 400 || "text/event-stream" <= contentType {
        FlushBuffer();
      }
    }

    method DoWrite(data: string)
      modifies this, underlying
      ensures View() == OnWrite(old(View()), data)
    {
      if passthrough {
        underlying.Send(Body(data));
        return;
      }
      if statusCode == 0 {
        DoWriteHeader(200);
        if passthrough {
          underlying.Send(Body(data));
          return;
        }
      }
      body := body + data;
    }

    method DoFlush()
      modifies this, underlying
      ensures View() == OnCall(old(View()), Flush)
    {
      if passthrough {
        underlying.Send(Flushed);
      }
    }

    method DoSetContentType(value: string)
      modifies this
      ensures View() == OnCall(old(View()), SetContentType(value))
    {
      if !passthrough {
        contentType := value;
      }
    }

    method Handle(call: Call)
      modifies this, underlying
      ensures View() == OnCall(old(View()), call)
    {
      match call
      case SetContentType(value) => DoSetContentType(value);
      case WriteHeader(status) => DoWriteHeader(status);
      case Write(data) => DoWrite(data);
      case Flush => DoFlush();
    }

    /** The end of envelope: replace the response or let it through. */
    method Finish(marshal: RpcError -> Option<string>)
      modifies this, underlying
      ensures underlying.out ==
              match Replacement(old(View()), marshal)
              case None => FlushAll(old(View())).out
              case Some(payload) => old(underlying.out) + [Header(200), Body(payload)]
    {
      if passthrough || statusCode != 400 || !("text/plain" <= contentType) {
        FlushBuffer();
        return;
      }
      var error := MapSDKError(TrimSpace(body));
      if error.None? {
        FlushBuffer();
        return;
      }
      var payload := marshal(error.value);
      if payload.None? {
        FlushBuffer();
        return;
      }
      underlying.Send(Header(200));
      underlying.Send(Body(payload.value));
    }
  }

  /** envelope, for a POST whose body could be read, around a handler that makes these calls. */
  method ServePost(calls: seq<Call>, marshal: RpcError -> Option<string>, w: ResponseWriter)
    requires w.out == []
    modifies w
    ensures w.out == Serve(calls, marshal)
  {
    var brw := new BufferedResponseWriter(w);
    for i := 0 to |calls|
      invariant fresh(brw) && brw.underlying == w
      invariant OnCalls(NEW, calls) == OnCalls(brw.View(), calls[i..])
    {
      assert calls[i..][1..] == calls[i + 1..];
      brw.Handle(calls[i]);
    }
    assert calls[|calls|..] == [];
    brw.Finish(marshal);
  }

  // ---------------------------------------------------------------------------------------------
  // An independent reading of the calls
  // ---------------------------------------------------------------------------------------------

  /** The call that commits a response: its status, and the content type set by then. */
  datatype Commit = Commit(status: int, contentType: string)

  function FirstCommit(calls: seq<Call>, contentType: string): Option<Commit> {
    if calls == [] then None
    else match calls[0]
      case SetContentType(value) => FirstCommit(calls[1..], value)
      case WriteHeader(status) => Some(Commit(status, contentType))
      case Write(_) => Some(Commit(200, contentType))
      case Flush => FirstCommit(calls[1..], contentType)
  }

  function LastContentType(calls: seq<Call>, contentType: string): string {
    if calls == [] then contentType
    else LastContentType(calls[1..], if calls[0].SetContentType? then calls[0].value else contentType)
  }

  /** net/http rejects statuses below 100. */
  predicate Legal(calls: seq<Call>) {
    forall call :: call in calls && call.WriteHeader? ==> call.status >= 100
  }

  // What the machine does with the calls -----------------------------------------------------------

  /** In passthrough, the rest of the calls arrive unchanged. */
  lemma {:induction false} PassthroughIsDirect(w: Writer, calls: seq<Call>)
    requires w.passthrough
    ensures OnCalls(w, calls).passthrough && OnCalls(w, calls).out == w.out + Direct(calls)
    ensures OnCalls(w, calls).body == w.body
    decreases |calls|
  {
    if calls == [] {
      assert w.out + Direct(calls) == w.out;
    } else {
      var u := OnCall(w, calls[0]);
      PassthroughIsDirect(u, calls[1..]);
      assert !calls[0].SetContentType? ==> u.out == w.out + [AsOut(calls[0])];
    }
  }

  /** What one call adds to the body. */
  function Data(call: Call): string {
    if call.Write? then call.data else ""
  }

  lemma BodyOfDirect(calls: seq<Call>)
    requires calls != []
    ensures BodyOf(Direct(calls)) == Data(calls[0]) + BodyOf(Direct(calls[1..]))
  {
    if !calls[0].SetContentType? {
      assert Direct(calls)[1..] == Direct(calls[1..]);
    }
  }

  lemma CallIsBuffered(w: Writer, call: Call)
    requires !w.passthrough && w.statusCode != 0
    ensures OnCall(w, call) == w.(body := w.body + Data(call), contentType := LastContentType([call], w.contentType))
  {
    assert [call][1..] == [];
  }

  /** Once an error status is buffered, everything is collected. */
  lemma {:induction false} BufferCollects(w: Writer, calls: seq<Call>)
    requires !w.passthrough && w.statusCode != 0
    ensures var v := OnCalls(w, calls);
            && !v.passthrough && v.statusCode == w.statusCode && v.out == w.out
            && v.body == w.body + BodyOf(Direct(calls))
            && v.contentType == LastContentType(calls, w.contentType)
    decreases |calls|
  {
    if calls != [] {
      hide OnCall, Direct, BodyOf, Data;
      CallIsBuffered(w, calls[0]);
      assert [calls[0]][1..] == [];
      BodyOfDirect(calls);
      BufferCollects(OnCall(w, calls[0]), calls[1..]);
    }
  }

  /** What the machine is, in terms of the first call that commits. */
  lemma {:induction false} MachineMeans(w: Writer, calls: seq<Call>)
    requires Legal(calls) && !w.passthrough && w.statusCode == 0 && w.body == "" && w.out == []
    ensures var v, first := OnCalls(w, calls), FirstCommit(calls, w.contentType);
            && (first.None? ==> v == w.(contentType := LastContentType(calls, w.contentType)))
            && (first.Some? && Streams(first.value.status, first.value.contentType) ==>
                  v.passthrough && v.body == "" &&
                  FinalStatus(v.out) == FinalStatus(Direct(calls)) && BodyOf(v.out) == BodyOf(Direct(calls)))
            && (first.Some? && !Streams(first.value.status, first.value.contentType) ==>
                  !v.passthrough && v.statusCode == first.value.status && v.out == [] &&
                  v.body == BodyOf(Direct(calls)) && v.contentType == LastContentType(calls, w.contentType) &&
                  FinalStatus(Direct(calls)) == Some(v.statusCode))
    decreases |calls|
  {
    if calls != [] {
      var u, rest := OnCall(w, calls[0]), calls[1..];
      assert !calls[0].SetContentType? ==> Direct(calls)[1..] == Direct(rest);
      match calls[0]
      case SetContentType(_) => MachineMeans(u, rest);
      case Flush =>
        MachineMeans(u, rest);
      case WriteHeader(status) =>
        assert calls[0] in calls;
        if Streams(status, w.contentType) {
          PassthroughIsDirect(u, rest);
        } else {
          BufferCollects(u, rest);
        }
      case Write(data) =>
        PassthroughIsDirect(u, rest);
        assert u.out == [Header(200), Body(data)];
        var all := u.out + Direct(rest);
        assert all[1..] == Direct(calls);
    }
  }

  // ---------------------------------------------------------------------------------------------
  // Main results
  // ---------------------------------------------------------------------------------------------

  /** The error that replaces the response to these calls, read off the calls themselves. */
  function RewrittenAs(calls: seq<Call>): Option<RpcError> {
    match FirstCommit(calls, "")
    case None => None
    case Some(first) =>
      if first.status == 400 && !("text/event-stream" <= first.contentType) && "text/plain" <= LastContentType(calls, "")
      then MapSDKError(TrimSpace(BodyOf(Direct(calls))))
      else None
  }

  /**
   Either the whole response is replaced, and then the underlying writer receives exactly status 200
   and the payload; or it receives the first final status that the handler wrote and all the bytes of
   its body. The first happens exactly when the calls are a plain-text 400 with a known message. What a
   Flush does to the status line is the subject of `StatusLineIsTransparent`.
   */
  lemma WholeResponseOrReplacement(calls: seq<Call>, marshal: RpcError -> Option<string>)
    requires Legal(calls)
    ensures var out, error := Serve(calls, marshal), RewrittenAs(calls);
            if error.Some? && marshal(error.value).Some? then
              out == [Header(200), Body(marshal(error.value).value)]
            else
              FinalStatus(out) == FinalStatus(Direct(calls)) && BodyOf(out) == BodyOf(Direct(calls))
  {
    MachineMeans(NEW, calls);
    var w, first := OnCalls(NEW, calls), FirstCommit(calls, "");
    var flushed := FlushAll(w).out;
    if first.None? {
      NoCommitMeansNothing(calls, "");
      assert flushed == [];
    } else if !Streams(first.value.status, first.value.contentType) {
      var body := if w.body != "" then [Body(w.body)] else [];
      assert flushed == [Header(w.statusCode)] + body;
      assert flushed[1..] == body && (body != [] ==> body[1..] == []);
      assert BodyOf(body) == w.body;
    }
  }

  lemma {:induction false} NoCommitMeansNothing(calls: seq<Call>, contentType: string)
    requires FirstCommit(calls, contentType).None?
    ensures FinalStatus(Direct(calls)) == None && BodyOf(Direct(calls)) == ""
    decreases |calls|
  {
    if calls != [] {
      NoCommitMeansNothing(calls[1..], if calls[0].SetContentType? then calls[0].value else contentType);
    }
  }

  /** Passthrough never ends, and in passthrough nothing is held back. */
  lemma {:induction false} PassthroughIsForever(w: Writer, calls: seq<Call>)
    requires w.passthrough ==> w.body == ""
    ensures var v := OnCalls(w, calls); (w.passthrough ==> v.passthrough) && (v.passthrough ==> v.body == "")
    decreases |calls|
  {
    if calls != [] {
      PassthroughIsForever(OnCall(w, calls[0]), calls[1..]);
    }
  }

  /** part stands somewhere in text. */
  ghost predicate Mentions(text: string, part: string) {
    exists a, b :: text == a + part + b
  }

  lemma ContainsIff(text: string, part: string)
    ensures Contains(text, part) <==> Mentions(text, part)
  {
    if Contains(text, part) {
      var i :| 0 <= i <= |text| && OccursAt(text, part, i);
      assert text == text[..i] + part + text[i + |part|..];
    }
    if Mentions(text, part) {
      var a, b :| text == a + part + b;
      assert OccursAt(text, part, |a|);
    }
  }

  /** Which message gets which JSON-RPC error (section 5.1 of the JSON-RPC 2.0 specification). */
  lemma SDKErrorMeans(text: string)
    ensures "malformed payload:" <= text ==> MapSDKError(text) == Some(RpcError(-32700, "Parse error", text))
    ensures !("malformed payload:" <= text) && Mentions(text, "JSON RPC not handled") ==>
              MapSDKError(text) == Some(RpcError(-32601, "Method not found", text))
    ensures !("malformed payload:" <= text) && !Mentions(text, "JSON RPC not handled") &&
            (Mentions(text, "missing required") || Mentions(text, "missing id") || Mentions(text, "unexpected id")) ==>
              MapSDKError(text) == Some(RpcError(-32600, "Invalid request", text))
    ensures MapSDKError(text).None? <==>
            !("malformed payload:" <= text) && !Mentions(text, "JSON RPC not handled") &&
            !Mentions(text, "missing required") && !Mentions(text, "missing id") && !Mentions(text, "unexpected id")
  {
    hide Contains, Mentions;
    ContainsIff(text, "JSON RPC not handled");
    ContainsIff(text, "missing required");
    ContainsIff(text, "missing id");
    ContainsIff(text, "unexpected id");
  }

  /** The calls are an error that may be replaced: status 400 in plain text. */
  predicate PlainError(calls: seq<Call>) {
    var first := FirstCommit(calls, "");
    && first.Some? && first.value.status == 400 && !("text/event-stream" <= first.value.contentType)
    && "text/plain" <= LastContentType(calls, "")
  }

  /** Nothing but a plain-text 400 is replaced, and the trimmed text decides by what. */
  lemma ReplacementCodes(calls: seq<Call>)
    ensures var text, error := TrimSpace(BodyOf(Direct(calls))), RewrittenAs(calls);
            && (error.Some? ==> PlainError(calls) && error.value.data == text)
            && (PlainError(calls) && "malformed payload:" <= text ==> error == Some(RpcError(-32700, "Parse error", text)))
            && (PlainError(calls) && !("malformed payload:" <= text) && Mentions(text, "JSON RPC not handled") ==>
                  error == Some(RpcError(-32601, "Method not found", text)))
            && (PlainError(calls) && !("malformed payload:" <= text) && !Mentions(text, "JSON RPC not handled") &&
                (Mentions(text, "missing required") || Mentions(text, "missing id") || Mentions(text, "unexpected id")) ==>
                  error == Some(RpcError(-32600, "Invalid request", text)))
            && (!("malformed payload:" <= text) && !Mentions(text, "JSON RPC not handled") &&
                !(Mentions(text, "missing required") || Mentions(text, "missing id") || Mentions(text, "unexpected id")) ==>
                  error == None)
  {
    hide MapSDKError, Mentions, TrimSpace, Direct, BodyOf;
    var text := TrimSpace(BodyOf(Direct(calls)));
    SDKErrorMeans(text);
    MappedKeepsText(text);
  }

  lemma MappedKeepsText(text: string)
    ensures MapSDKError(text).Some? ==> MapSDKError(text).value.data == text
  {
    hide Contains;
  }

  /** A response below 400, or an event stream, is never held back; any other is held back whole. */
  lemma HeldBackIff(calls: seq<Call>)
    requires Legal(calls)
    ensures var w, first := OnCalls(NEW, calls), FirstCommit(calls, "");
            if first.Some? && (first.value.status < 400 || "text/event-stream" <= first.value.contentType)
            then FinalStatus(w.out) == FinalStatus(Direct(calls)) && BodyOf(w.out) == BodyOf(Direct(calls)) && w.body == ""
            else w.out == [] && w.body == BodyOf(Direct(calls))
  {
    MachineMeans(NEW, calls);
    hide OnCalls, Direct, BodyOf, FinalStatus;
    if FirstCommit(calls, "").None? {
      NoCommitMeansNothing(calls, "");
    }
  }

  // ---------------------------------------------------------------------------------------------
  // Early flushes
  // ---------------------------------------------------------------------------------------------

  /** The status line net/http sends, when a Flush also commits status 200 and so does returning without a word. */
  function StatusSent(out: seq<Out>): int {
    if out == [] then 200
    else match out[0]
      case Header(status) => if Informational(status) then StatusSent(out[1..]) else status
      case _ => 200
  }

  /** The calls from the first one that commits. */
  function Committed(calls: seq<Call>): seq<Call> {
    if calls == [] || calls[0].WriteHeader? || calls[0].Write? then calls else Committed(calls[1..])
  }

  /** A Flush comes before it. */
  predicate EarlyFlush(calls: seq<Call>) {
    calls != [] && (calls[0].Flush? || (calls[0].SetContentType? && EarlyFlush(calls[1..])))
  }

  lemma {:induction false} DirectStatus(calls: seq<Call>)
    ensures StatusSent(Direct(calls)) == if EarlyFlush(calls) then 200 else StatusSent(Direct(Committed(calls)))
  {
    if calls != [] && calls[0].SetContentType? {
      DirectStatus(calls[1..]);
    }
  }

  /** The machine takes no notice of a Flush before the commit. */
  lemma {:induction false} MachineStatus(w: Writer, calls: seq<Call>)
    requires Legal(calls) && !w.passthrough && w.statusCode == 0 && w.body == "" && w.out == []
    ensures StatusSent(FlushAll(OnCalls(w, calls)).out) == StatusSent(Direct(Committed(calls)))
    decreases |calls|
  {
    if calls != [] {
      var u, rest := OnCall(w, calls[0]), calls[1..];
      match calls[0]
      case SetContentType(_) => MachineStatus(u, rest);
      case Flush => MachineStatus(u, rest);
      case WriteHeader(status) =>
        assert calls[0] in calls;
        if Streams(status, w.contentType) {
          PassthroughIsDirect(u, rest);
          assert u.out + Direct(rest) == Direct(calls);
        } else {
          BufferCollects(u, rest);
          assert FlushAll(OnCalls(u, rest)).out[0] == Header(status);
        }
      case Write(data) =>
        PassthroughIsDirect(u, rest);
        assert u.out == [Header(200), Body(data)];
    }
  }

  lemma UnreplacedIsFlushed(calls: seq<Call>, marshal: RpcError -> Option<string>)
    requires Legal(calls) && (RewrittenAs(calls).None? || marshal(RewrittenAs(calls).value).None?)
    ensures Serve(calls, marshal) == FlushAll(OnCalls(NEW, calls)).out
  {
    hide MapSDKError, FlushAll, FinalStatus, OnCalls, Direct, TrimSpace;
    MachineMeans(NEW, calls);
  }

  /**
   A response that is not replaced has the status line it would have without the middleware, exactly
   when no Flush came before the first status or body, or that first commit means status 200 anyway.
   */
  lemma StatusLineIsTransparent(calls: seq<Call>, marshal: RpcError -> Option<string>)
    requires Legal(calls) && (RewrittenAs(calls).None? || marshal(RewrittenAs(calls).value).None?)
    ensures StatusSent(Serve(calls, marshal)) == StatusSent(Direct(calls)) <==>
            !EarlyFlush(calls) || StatusSent(Direct(Committed(calls))) == 200
  {
    hide MapSDKError, FlushAll, StatusSent, Direct, Committed;
    UnreplacedIsFlushed(calls, marshal);
    DirectStatus(calls);
    MachineStatus(NEW, calls);
  }

  /** The buffer swallows a Flush that comes before the status, and the client sees another status line. */
  lemma EarlyFlushIsSwallowed(marshal: RpcError -> Option<string>)
    ensures var calls := [Flush, WriteHeader(404)];
            StatusSent(Direct(calls)) == 200 && StatusSent(Serve(calls, marshal)) == 404
  {
  }
}
