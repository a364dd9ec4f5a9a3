/**
 * The transcript and outbound-event vocabulary the event dispatcher works
 * with. The transcript store itself (TranscriptContext) is not part of this
 * model; its three updaters are modelled as appending an item, rewriting the
 * text of the messages with a given id, and marking the items with a given id
 * DONE.
 */
module Transcript {
  import opened Wrappers
  import opened JsValues

  datatype ItemStatus = InProgress | Done

  /** A transcript entry: a conversation message keyed by its item id, or an observability breadcrumb. */
  datatype TranscriptItem =
    | Message(itemId: string, role: string, text: string, hidden: bool, status: ItemStatus)
    | Breadcrumb(title: string, data: Option<Value>)

  /**
   * An event sent into the realtime transport: a `conversation.item.create`
   * carrying a `function_call_output` (whose `output` is the JSON text of the
   * value), a `conversation.item.create` carrying a user message with one
   * `input_text` part, or a `response.create`.
   */
  datatype ClientEvent =
    | FunctionCallOutput(callId: Option<string>, output: Value)
    | UserText(id: string, text: string)
    | ResponseCreate

  /** `transcriptItems.some(item => item.itemId === id)` */
  predicate HasItem(items: seq<TranscriptItem>, id: string) {
    exists i :: 0 <= i < |items| && items[i].Message? && items[i].itemId == id
  }

  function Retext(item: TranscriptItem, id: string, text: string, append: bool): TranscriptItem {
    if item.Message? && item.itemId == id
    then item.(text := if append then item.text + text else text)
    else item
  }

  /** `updateTranscriptMessage(id, text, append)` */
  function UpdateMessage(items: seq<TranscriptItem>, id: string, text: string, append: bool): (r: seq<TranscriptItem>)
    ensures |r| == |items|
    ensures forall i :: 0 <= i < |items| ==> r[i] == Retext(items[i], id, text, append)
  {
    seq(|items|, i requires 0 <= i < |items| => Retext(items[i], id, text, append))
  }

  function MarkDone(item: TranscriptItem, id: string): TranscriptItem {
    if item.Message? && item.itemId == id then item.(status := Done) else item
  }

  /** `updateTranscriptItemStatus(id, "DONE")` */
  function UpdateStatus(items: seq<TranscriptItem>, id: string): (r: seq<TranscriptItem>)
    ensures |r| == |items|
    ensures forall i :: 0 <= i < |items| ==> r[i] == MarkDone(items[i], id)
  {
    seq(|items|, i requires 0 <= i < |items| => MarkDone(items[i], id))
  }
}
