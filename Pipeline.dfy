/**
 * The handler and the page together: what the page shows for the bodies the
 * handler sends, when each chunk the relay enqueues reaches the reader as one
 * chunk.
 */
module Pipeline {
  import opened Wrappers
  import Js
  import Route
  import Page

  /** The texts as the page's per-chunk decoding shows them: each one loses a leading byte order mark. */
  function ShownTexts(texts: seq<string>): (shown: seq<string>)
    ensures |shown| == |texts|
    ensures forall i :: 0 <= i < |texts| ==> shown[i] == Js.DropByteOrderMark(texts[i])
  {
    if texts == [] then [] else [Js.DropByteOrderMark(texts[0])] + ShownTexts(texts[1..])
  }

  /** Texts none of which starts with a byte order mark are shown unchanged. */
  lemma ShownTextsUnchanged(texts: seq<string>)
    requires forall i :: 0 <= i < |texts| ==> texts[i] == [] || texts[i][0] != Js.ByteOrderMark
    ensures ShownTexts(texts) == texts
  {
  }

  /** Decoding the encoded texts chunk by chunk gives back their concatenation, each less a leading byte order mark. */
  lemma {:induction false} DecodeEncodedTexts(texts: seq<string>, encode: string -> Js.Bytes, decode: Js.Bytes -> string)
    requires Js.Utf8Pair(encode, decode)
    ensures Page.DecodeAll(Route.EncodeAll(texts, encode), decode) == Route.Concat(ShownTexts(texts))
  {
    if texts != [] {
      var chunks := Route.EncodeAll(texts, encode);
      assert chunks == [encode(texts[0])] + Route.EncodeAll(texts[1..], encode);
      Page.DecodeAllAppend([encode(texts[0])], Route.EncodeAll(texts[1..], encode), decode);
      assert Page.DecodeAll([encode(texts[0])], decode) == decode(encode(texts[0]));
      DecodeEncodedTexts(texts[1..], encode, decode);
      assert ShownTexts(texts)[1..] == ShownTexts(texts[1..]);
    }
  }

  /**
   * A completed stream shows on the page the text of the service's text
   * deltas, in order, each less a leading byte order mark; when no delta starts
   * with one, exactly their text. Progress ends at 100.
   */
  lemma PageShowsRelayedText(events: seq<Route.Event>, encode: string -> Js.Bytes, decode: Js.Bytes -> string)
    requires Js.Utf8Pair(encode, decode)
    ensures var t := Page.Fetched(200, Some(Page.BodyStream(Route.EncodeAll(Route.TextDeltas(events), encode), false)));
      Page.DecodeAll(Page.ChunksRead(t), decode) == Route.Concat(ShownTexts(Route.TextDeltas(events)))
      && Page.ProgressSchedule(t)[|Page.ProgressSchedule(t)| - 1] == Page.ProgressDone
    ensures (forall i :: 0 <= i < |Route.TextDeltas(events)| ==>
               Route.TextDeltas(events)[i] == [] || Route.TextDeltas(events)[i][0] != Js.ByteOrderMark)
      ==> Page.DecodeAll(Route.EncodeAll(Route.TextDeltas(events), encode), decode) == Route.Concat(Route.TextDeltas(events))
  {
    var texts := Route.TextDeltas(events);
    DecodeEncodedTexts(texts, encode, decode);
    if forall i :: 0 <= i < |texts| ==> texts[i] == [] || texts[i][0] != Js.ByteOrderMark {
      ShownTextsUnchanged(texts);
    }
  }

  /** A delta that starts with a byte order mark reaches the page without it. */
  lemma LeadingByteOrderMarkLost(encode: string -> Js.Bytes, decode: Js.Bytes -> string)
    requires Js.Utf8Pair(encode, decode)
    ensures Page.DecodeAll(Route.EncodeAll(Route.TextDeltas([Route.ContentBlockDelta(Route.TextDelta("\U{FEFF}Hi"))]), encode), decode) == "Hi"
  {
    var texts := Route.TextDeltas([Route.ContentBlockDelta(Route.TextDelta("\U{FEFF}Hi"))]);
    assert texts == ["\U{FEFF}Hi"];
    DecodeEncodedTexts(texts, encode, decode);
    assert ShownTexts(texts) == ["Hi"];
  }

  /**
   * The page never looks at the status: a rejected request's JSON error body is
   * read, shown as the post, and progress still reaches 100.
   */
  lemma RejectionShownAsPost(encode: string -> Js.Bytes, decode: Js.Bytes -> string)
    requires Js.Utf8Pair(encode, decode)
    ensures var t := Page.Fetched(Route.BadRequest().status, Some(Page.BodyStream([encode(Route.TooShortBody)], false)));
      Page.DecodeAll(Page.ChunksRead(t), decode) == Route.TooShortBody
      && Page.ReachesDone(t)
      && Page.ProgressSchedule(t)[|Page.ProgressSchedule(t)| - 1] == Page.ProgressDone
  {
    var chunks := [encode(Route.TooShortBody)];
    assert chunks[..0] == [];
    assert Route.TooShortBody[0] == '{';
  }
}
