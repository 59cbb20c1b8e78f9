/** Output events as the worker stores them. */
module Outputs {
  import opened Wrappers
  import opened KernelProof

  datatype Output =
    | StreamOutput(name: string, text: Bytes)
    | ErrorOutput(errorName: string, errorValue: string, traceback: seq<Bytes>)
    | DisplayOutput(kind: Kind, representations: seq<(string, Bytes)>, displayId: Option<string>)
    | ClearOutput(wait: bool)

  /** The kind the output path sees: a header object hides the bare field. */
  function OutputKind(m: Message): Option<Kind> {
    match m.header
    case NoHeader => m.bareKind
    case HeaderWithoutKind => None
    case HeaderOf(kind) => Some(kind)
  }

  function TextOr(s: Option<string>, default: string): string {
    if s.Some? && s.value != "" then s.value else default
  }

  /** _normalize_output */
  function Normalize(e: KernelEvent): Option<Output> {
    if e.channel != Iopub || OutputKind(e.message).None? || e.message.content.None? then None
    else
      var c := e.message.content.value;
      match OutputKind(e.message).value
      case Stream => Some(StreamOutput(TextOr(Some(c.streamName), "stdout"), c.text))
      case ErrorReport =>
        Some(ErrorOutput(TextOr(c.errorName, "Error"), TextOr(c.errorValue, ""),
                         if c.traceback.Some? then c.traceback.value else []))
      case ClearOutput => Some(Output.ClearOutput(c.wait))
      case DisplayData => Some(DisplayOutput(DisplayData, c.representations, c.displayId))
      case ExecuteResult => Some(DisplayOutput(ExecuteResult, c.representations, c.displayId))
      case UpdateDisplayData => Some(DisplayOutput(UpdateDisplayData, c.representations, c.displayId))
      case _ => None
  }

  function Stored(e: KernelEvent): seq<Output> {
    if Normalize(e).Some? then [Normalize(e).value] else []
  }

  /** The message sends output of this kind: its header says so, or the message itself when it has no header. */
  predicate Sends(e: KernelEvent, k: Kind) {
    && e.channel == Iopub && e.message.content.Some?
    && (e.message.header == HeaderOf(k) || (e.message.header == NoHeader && e.message.bareKind == Some(k)))
  }

  /** The message sends text to this stream; a stream without a name is "stdout". */
  predicate SendsTo(e: KernelEvent, name: string) {
    && Sends(e, Stream)
    && var sent := e.message.content.value.streamName;
       (sent == name && name != "") || (sent == "" && name == "stdout")
  }

  /** The error of a message, where what is missing or empty is "Error", "" and no lines. */
  predicate SendsError(e: KernelEvent, name: string, value: string, lines: seq<Bytes>) {
    && Sends(e, ErrorReport)
    && var c := e.message.content.value;
       && (if c.errorName.None? || c.errorName.value == "" then name == "Error" else c.errorName == Some(name))
       && (if c.errorValue.None? then value == "" else c.errorValue == Some(value))
       && (if c.traceback.None? then lines == [] else c.traceback == Some(lines))
  }

  predicate SendsDisplay(e: KernelEvent, k: Kind) {
    (k == DisplayData || k == ExecuteResult || k == UpdateDisplayData) && Sends(e, k)
  }

  /** What a message stores, in its fields: a stream's text, an error, a display, a clear, and for any other message nothing. */
  lemma StoredMeans(e: KernelEvent, o: Output)
    ensures Stored(e) == [o]
            <==> match o
                 case StreamOutput(name, text) => SendsTo(e, name) && e.message.content.value.text == text
                 case ErrorOutput(name, value, lines) => SendsError(e, name, value, lines)
                 case DisplayOutput(k, representations, displayId) =>
                   && SendsDisplay(e, k)
                   && e.message.content.value.representations == representations && e.message.content.value.displayId == displayId
                 case ClearOutput(wait) => Sends(e, Kind.ClearOutput) && e.message.content.value.wait == wait
    ensures Stored(e) == []
            <==> !Sends(e, Stream) && !Sends(e, ErrorReport) && !Sends(e, Kind.ClearOutput)
                 && !Sends(e, DisplayData) && !Sends(e, ExecuteResult) && !Sends(e, UpdateDisplayData)
  {
    assert forall k :: Sends(e, k) <==> e.channel == Iopub && e.message.content.Some? && OutputKind(e.message) == Some(k);
    if OutputKind(e.message).Some? {
      match OutputKind(e.message).value
      case Stream =>
      case ErrorReport =>
      case ClearOutput =>
      case _ =>
    }
  }

  /** Everything a list of matching events stores, in order. */
  function StoredAll(events: seq<KernelEvent>): seq<Output> {
    if events == [] then [] else Stored(events[0]) + StoredAll(events[1..])
  }

  lemma {:induction false} StoredAllAppend(xs: seq<KernelEvent>, ys: seq<KernelEvent>)
    ensures StoredAll(xs + ys) == StoredAll(xs) + StoredAll(ys)
  {
    if xs == [] {
      assert xs + ys == ys;
    } else {
      assert (xs + ys)[1..] == xs[1..] + ys;
      StoredAllAppend(xs[1..], ys);
    }
  }
}
