/** How one transcript message is shown: its body as plain text or markdown, and
    the source chips built from its grounding citations. */
module ChatMessage {
  import opened Types

  /** A source chip: a link with its uri and title, marked as web or maps. */
  datatype SourceLink = WebLink(uri: string, title: string) | MapsLink(uri: string, title: string)

  /** An error text is shown as plain text; every other text goes through markdown. */
  datatype Body = PlainText(text: string) | Markdown(text: string)

  function BodyOf(msg: Message): (b: Body)
    ensures b.text == msg.text
    ensures b.PlainText? <==> msg.isError == Some(true)
  {
    if msg.isError == Some(true) then PlainText(msg.text) else Markdown(msg.text)
  }

  /** The chip for one chunk: a web citation wins over a maps citation in the same
      chunk; a chunk with neither yields nothing. */
  function ChunkLink(chunk: GroundingChunk): (link: Option<SourceLink>)
    ensures link.Some? <==> chunk.web.Some? || chunk.maps.Some?
    ensures chunk.web.Some? ==> link == Some(WebLink(chunk.web.value.uri, chunk.web.value.title))
    ensures chunk.web.None? && chunk.maps.Some? ==>
      link == Some(MapsLink(chunk.maps.value.uri, chunk.maps.value.title))
  {
    if chunk.web.Some? then Some(WebLink(chunk.web.value.uri, chunk.web.value.title))
    else if chunk.maps.Some? then Some(MapsLink(chunk.maps.value.uri, chunk.maps.value.title))
    else None
  }

  /** The chips of a chunk list, in chunk order, skipping chunks that yield nothing.
      Each chip comes from some chunk, and there are never more chips than chunks. */
  function SourceLinks(chunks: seq<GroundingChunk>): (links: seq<SourceLink>)
    ensures |links| <= |chunks|
    ensures forall k :: 0 <= k < |links| ==>
      exists i :: 0 <= i < |chunks| && ChunkLink(chunks[i]) == Some(links[k])
  {
    if chunks == [] then []
    else
      var rest := SourceLinks(chunks[1..]);
      match ChunkLink(chunks[0])
      case None => rest
      case Some(l) => [l] + rest
  }

  /** Order is kept: the chips of two lists placed one after the other are the
      chips of the first followed by the chips of the second. */
  lemma {:induction false} SourceLinksAppend(a: seq<GroundingChunk>, b: seq<GroundingChunk>)
    ensures SourceLinks(a + b) == SourceLinks(a) + SourceLinks(b)
  {
    if a == [] {
      assert a + b == b;
    } else {
      assert (a + b)[1..] == a[1..] + b;
      SourceLinksAppend(a[1..], b);
    }
  }

  /** When every chunk carries a citation, there is one chip per chunk, chip i from chunk i. */
  lemma {:induction false} SourceLinksOnePerChunk(chunks: seq<GroundingChunk>)
    requires forall i :: 0 <= i < |chunks| ==> chunks[i].web.Some? || chunks[i].maps.Some?
    ensures |SourceLinks(chunks)| == |chunks|
    ensures forall i :: 0 <= i < |chunks| ==> ChunkLink(chunks[i]) == Some(SourceLinks(chunks)[i])
  {
    if chunks != [] {
      var rest := chunks[1..];
      assert forall i :: 0 <= i < |rest| ==> rest[i] == chunks[i + 1];
      SourceLinksOnePerChunk(rest);
      var links := SourceLinks(chunks);
      assert links == [ChunkLink(chunks[0]).value] + SourceLinks(rest);
      forall i | 0 <= i < |chunks|
        ensures ChunkLink(chunks[i]) == Some(links[i])
      {
        if i > 0 {
          assert chunks[i] == rest[i - 1];
        }
      }
    }
  }

  /** A chunk that carries neither citation adds no chip wherever it stands. */
  lemma SourceLinksSkipEmpty(a: seq<GroundingChunk>, b: seq<GroundingChunk>)
    ensures SourceLinks(a + [GroundingChunk(None, None)] + b) == SourceLinks(a + b)
  {
    SourceLinksAppend(a + [GroundingChunk(None, None)], b);
    SourceLinksAppend(a, [GroundingChunk(None, None)]);
    SourceLinksAppend(a, b);
    assert SourceLinks([GroundingChunk(None, None)]) == [];
  }

  /** Whether the chip row is rendered: only under a non-user message whose list is non-empty. */
  predicate ShowsSources(msg: Message)
  {
    msg.role != User && msg.groundingChunks.Some? && |msg.groundingChunks.value| > 0
  }

  /** The chips rendered under a message. */
  function Sources(msg: Message): (links: seq<SourceLink>)
    ensures !ShowsSources(msg) ==> links == []
    ensures msg.role == User ==> links == []
    ensures ShowsSources(msg) ==> links == SourceLinks(msg.groundingChunks.value)
  {
    if ShowsSources(msg) then SourceLinks(msg.groundingChunks.value) else []
  }
}
