/** The streamed form of a response (llm/llm.go) and what a consumer rebuilds from it, block by block. */
module Deltas {
  import opened Options

  datatype Delta =
    | TextDelta(index: int, text: string)
    | ReasoningDelta(index: int, text: string)
    | CallStart(index: int, toolIndex: int, id: string, name: string)
    | CallArguments(index: int, toolIndex: int, text: string)

  /** A block of a response. A call knows its number among the calls. */
  datatype Piece =
    | Said(text: string)
    | Thought(text: string)
    | Called(toolIndex: int, id: string, name: string, input: string)

  datatype Rebuilt = Rebuilt(blocks: map<int, Piece>, calls: nat)

  const NOTHING := Rebuilt(map[], 0)

  /** Reading one delta; None is a stream that contradicts itself: a block that changes its kind, starts twice, or a call
      out of number. */
  function Read(r: Rebuilt, d: Delta): Option<Rebuilt> {
    match d
    case TextDelta(i, text) =>
      if i !in r.blocks then Some(r.(blocks := r.blocks[i := Said(text)]))
      else if r.blocks[i].Said? then Some(r.(blocks := r.blocks[i := Said(r.blocks[i].text + text)]))
      else None
    case ReasoningDelta(i, text) =>
      if i !in r.blocks then Some(r.(blocks := r.blocks[i := Thought(text)]))
      else if r.blocks[i].Thought? then Some(r.(blocks := r.blocks[i := Thought(r.blocks[i].text + text)]))
      else None
    case CallStart(i, n, id, name) =>
      if i in r.blocks || n != r.calls then None
      else Some(Rebuilt(r.blocks[i := Called(n, id, name, "")], r.calls + 1))
    case CallArguments(i, n, text) =>
      if i in r.blocks && r.blocks[i].Called? && r.blocks[i].toolIndex == n then
        Some(r.(blocks := r.blocks[i := r.blocks[i].(input := r.blocks[i].input + text)]))
      else None
  }

  function ReadAll(ds: seq<Delta>): Option<Rebuilt> {
    if ds == [] then Some(NOTHING)
    else
      var before := ReadAll(ds[..|ds| - 1]);
      if before.None? then None else Read(before.value, ds[|ds| - 1])
  }

  lemma ReadOneMore(ds: seq<Delta>, d: Delta)
    ensures ReadAll(ds + [d]) == if ReadAll(ds).None? then None else Read(ReadAll(ds).value, d)
  {
    assert (ds + [d])[..|ds|] == ds;
  }
}
