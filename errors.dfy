/**
 * The client library's error type: one variant per failure kind, each
 * displayed as a fixed label, ": ", and its payload. The five variants that
 * wrap a foreign error carry that error's own display text.
 */
module Errors {
  import opened Text

  datatype Error =
    | WebSocket(cause: string)
    | Io(cause: string)
    | Protobuf(cause: string)
    | Url(cause: string)
    | Utf8(cause: string)
    | Authentication(message: string)
    | Connection(message: string)
    | Api(message: string)
  {
    /** The text that follows the label. */
    function Payload(): string {
      match this
      case WebSocket(c) => c
      case Io(c) => c
      case Protobuf(c) => c
      case Url(c) => c
      case Utf8(c) => c
      case Authentication(m) => m
      case Connection(m) => m
      case Api(m) => m
    }

    function Label(): string {
      match this
      case WebSocket(_) => "WebSocket error"
      case Io(_) => "IO error"
      case Protobuf(_) => "Protobuf error"
      case Url(_) => "URL error"
      case Utf8(_) => "UTF-8 error"
      case Authentication(_) => "Authentication error"
      case Connection(_) => "Connection failed"
      case Api(_) => "API error"
    }

    /** The `Display` rendering of the error. */
    function Display(): (r: string)
      ensures Connection? ==> r == "Connection failed: " + message
      ensures Api? ==> r == "API error: " + message
      ensures Authentication? ==> r == "Authentication error: " + message
      ensures WebSocket? ==> r == "WebSocket error: " + cause
      ensures Protobuf? ==> r == "Protobuf error: " + cause
      ensures Io? ==> r == "IO error: " + cause
      ensures Url? ==> r == "URL error: " + cause
      ensures Utf8? ==> r == "UTF-8 error: " + cause
      ensures EndsWith(r, Payload())
    {
      Label() + ": " + Payload()
    }
  }

  /** The library's `Result<T>`: a value or an `Error`. */
  datatype Result<T> = Ok(value: T) | Err(error: Error)

  /** The `From` conversion of a protobuf failure, which `?` applies to encode and decode errors. */
  function FromProtobuf(cause: string): (e: Error)
    ensures !e.Api? && !e.Connection?
    ensures StartsWith(e.Display(), "Protobuf error: ") && e.Payload() == cause
  {
    Protobuf(cause)
  }

  /** The `From` conversion of a WebSocket transport failure. */
  function FromWebSocket(cause: string): (e: Error)
    ensures !e.Api? && !e.Connection?
    ensures StartsWith(e.Display(), "WebSocket error: ") && e.Payload() == cause
  {
    WebSocket(cause)
  }

  /** No two labels are such that one, followed by ": ", is a prefix of the other's display. */
  lemma {:induction false} LabelsDistinguishable(a: Error, b: Error)
    requires a.Label() != b.Label()
    ensures a.Display() != b.Display()
  {
    var la, lb := a.Label() + ": ", b.Label() + ": ";
    assert a.Display() == la + a.Payload() && b.Display() == lb + b.Payload();
    var k := FirstLabelDifference(a, b);
    assert a.Display()[k] == la[k] != lb[k] == b.Display()[k];
  }

  /** Where two different labels (with their ": ") first differ. */
  function FirstLabelDifference(a: Error, b: Error): (k: nat)
    requires a.Label() != b.Label()
    ensures k < |a.Label() + ": "| && k < |b.Label() + ": "|
    ensures (a.Label() + ": ")[k] != (b.Label() + ": ")[k]
  {
    var la, lb := a.Label(), b.Label();
    if la[0] != lb[0] then 0
    else if la[1] != lb[1] then 1
    else if la[2] != lb[2] then 2
    else 3
  }

  /** Display loses nothing: the displayed text determines the error. */
  lemma {:induction false} DisplayInjective(a: Error, b: Error)
    requires a.Display() == b.Display()
    ensures a == b
  {
    if a.Label() != b.Label() {
      LabelsDistinguishable(a, b);
    } else {
      var n := |a.Label() + ": "|;
      assert a.Payload() == a.Display()[n..] == b.Display()[n..] == b.Payload();
    }
  }
}
