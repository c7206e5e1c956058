/** The events one agent shows while it works, numbered in one unbroken stream. */
module LiveEvents {
  import opened ModelOutput

  datatype Event =
    | ItemStarted(item: ItemId, role: Role)
    | Delta(item: ItemId, revision: nat, text: string)
    | Finalized(item: ItemId, revision: nat)
    | ServerToolStarted(item: ItemId, tool: string)
    | ServerToolCalled(item: ItemId, revision: nat, call: ServerCall)
    | AgentIdle
    | UsageReported(tokens: nat)

  datatype Envelope = Envelope(sequence: nat, event: Event)

  /** Event numbers end just before `next` and have no gap. */
  ghost predicate Contiguous(events: seq<Envelope>, next: nat) {
    forall k :: 0 <= k < |events| ==> events[k].sequence + (|events| - k) == next
  }

  function Numbered(events: seq<Event>, first: nat): (numbered: seq<Envelope>)
    ensures |numbered| == |events|
    ensures forall k :: 0 <= k < |events| ==> numbered[k] == Envelope(first + k, events[k])
  {
    seq(|events|, k requires 0 <= k < |events| => Envelope(first + k, events[k]))
  }
}
