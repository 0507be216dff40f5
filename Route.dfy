/**
 * The POST handler of the generate endpoint: the input gate, the tone table and
 * its fallback, the prompt template, and the relay that turns the generation
 * service's event stream into the response body's byte stream.
 */
module Route {
  import opened Wrappers
  import Js
  import Streams
  import Sequences

  // ---------------------------------------------------------------------------
  // Input gate
  // ---------------------------------------------------------------------------

  /** Shortest accepted source text, in UTF-16 code units after trimming. */
  const MinSourceLength: nat := 10

  /** JSON.stringify({ error: "Source text is too short." }) */
  const TooShortBody := "{\"error\":\"Source text is too short.\"}"

  /**
   * The rejection test `!sourceText || sourceText.trim().length < 10`:
   * an absent or empty source text, or one whose trimmed length is below 10.
   */
  predicate TooShort(sourceText: Option<string>)
    ensures sourceText.Some? && Js.AllWhitespace(sourceText.value) ==> TooShort(sourceText)
  {
    match sourceText
    case None => true
    case Some(s) =>
      Js.TrimEmptyIffWhitespace(s);
      s == "" || Js.Utf16Length(Js.Trim(s)) < MinSourceLength
  }

  /** A present source text passes exactly when its trimmed length reaches 10. */
  lemma GateBoundary(s: string)
    ensures !TooShort(Some(s)) <==> Js.Utf16Length(Js.Trim(s)) >= MinSourceLength
  {
  }

  /** Leading and trailing whitespace never decide the gate. */
  lemma GateIgnoresPadding(p: string, s: string, q: string)
    requires Js.AllWhitespace(p) && Js.AllWhitespace(q)
    ensures TooShort(Some(p + s + q)) == TooShort(Some(s))
  {
    Js.TrimIgnoresPadding(p, s, q);
  }

  /** For text inside the Basic Multilingual Plane the gate counts characters of the trimmed text. */
  lemma GateCountsCharacters(s: string)
    requires forall k :: 0 <= k < |s| ==> s[k] as int <= 0xFFFF
    ensures TooShort(Some(s)) <==> |Js.Trim(s)| < MinSourceLength
  {
    Js.TrimKeepsBmp(s);
  }

  /** Outside it every character counts twice: five emoji already pass the gate. */
  lemma GateCountsAstralTwice(s: string)
    requires forall k :: 0 <= k < |s| ==> s[k] as int > 0xFFFF
    ensures TooShort(Some(s)) <==> 2 * |s| < MinSourceLength
  {
    Js.AstralLength(s);
    if s != [] {
      if Js.IsWhitespace(s[0]) {
        Js.WhitespaceInBmp(s[0]);
      }
      if Js.IsWhitespace(s[|s| - 1]) {
        Js.WhitespaceInBmp(s[|s| - 1]);
      }
    }
    assert Js.TrimStart(s) == s;
    assert Js.TrimEnd(s) == s;
    assert Js.Trim(s) == s;
  }

  // ---------------------------------------------------------------------------
  // Tone table and its fallback
  // ---------------------------------------------------------------------------

  const Professional := "Tone: polished, authoritative, data-driven. Use industry language. Keep it formal yet warm."
  const Creative := "Tone: storytelling, vivid, unexpected angles. Use a narrative arc. Surprise the reader with your opening."
  const Bold := "Tone: high energy, direct, conviction-driven. Short punchy sentences. Use power words. Make bold claims backed by the content."

  /** The own properties of the TONE_MODIFIERS object literal. */
  const ToneModifiers: map<string, string> :=
    map["professional" := Professional, "creative" := Creative, "bold" := Bold]

  /** The key a property read uses: an absent tone is `undefined`, read as the key "undefined". */
  function PropertyKey(tone: Option<string>): string {
    match tone
    case None => "undefined"
    case Some(t) => t
  }

  /**
   * The tone instruction: the table's entry for one of its three keys, the
   * professional entry for anything else (the `?? TONE_MODIFIERS.professional`
   * fallback), looking only at the table's own entries.
   */
  function ResolveTone(tone: Option<string>): (r: string)
    ensures r == Professional || r == Creative || r == Bold
    ensures tone == Some("professional") ==> r == Professional
    ensures tone == Some("creative") ==> r == Creative
    ensures tone == Some("bold") ==> r == Bold
    ensures (tone.None? || tone.value !in {"professional", "creative", "bold"}) ==> r == Professional
  {
    var key := PropertyKey(tone);
    if key in ToneModifiers then ToneModifiers[key] else Professional
  }

  /** The three tones give three different instructions, so the tone chosen is never lost. */
  lemma ToneChoiceDistinguishable(a: string, b: string)
    requires a in ToneModifiers && b in ToneModifiers
    requires ResolveTone(Some(a)) == ResolveTone(Some(b))
    ensures a == b
  {
    assert |Professional| != |Creative| && |Creative| != |Bold| && |Professional| != |Bold|;
  }

  /** What reading a key of the object literal yields when the key is not one of its own. */
  datatype PropertyValue = OwnString(s: string) | BuiltinFunction(name: string) | PrototypeObject

  /** The methods every plain object inherits from Object.prototype, with each function's name. */
  const ObjectPrototypeMethods: map<string, string> := map[
    "constructor" := "Object",
    "toString" := "toString",
    "toLocaleString" := "toLocaleString",
    "valueOf" := "valueOf",
    "hasOwnProperty" := "hasOwnProperty",
    "isPrototypeOf" := "isPrototypeOf",
    "propertyIsEnumerable" := "propertyIsEnumerable",
    "__defineGetter__" := "__defineGetter__",
    "__defineSetter__" := "__defineSetter__",
    "__lookupGetter__" := "__lookupGetter__",
    "__lookupSetter__" := "__lookupSetter__"
  ]

  /** `TONE_MODIFIERS[key]`: own entries first, then what Object.prototype supplies, else undefined. */
  function ReadToneProperty(key: string): (r: Option<PropertyValue>)
    ensures r.None? <==> key !in ToneModifiers && key !in ObjectPrototypeMethods && key != "__proto__"
    ensures (r.Some? && r.value.OwnString?) <==> key in ToneModifiers
  {
    if key in ToneModifiers then Some(OwnString(ToneModifiers[key]))
    else if key in ObjectPrototypeMethods then Some(BuiltinFunction(ObjectPrototypeMethods[key]))
    else if key == "__proto__" then Some(PrototypeObject)
    else None
  }

  /** How a template literal renders a value: built-in functions print their native source form. */
  function Interpolate(v: PropertyValue): (r: string)
    ensures v.OwnString? ==> r == v.s
  {
    match v
    case OwnString(s) => s
    case BuiltinFunction(name) => "function " + name + "() { [native code] }"
    case PrototypeObject => "[object Object]"
  }

  /**
   * The tone instruction as the handler computes it: `??` only replaces
   * undefined, so an inherited key never reaches the fallback. Off the
   * inherited keys it agrees with ResolveTone.
   */
  function ToneInstructionAsWritten(tone: Option<string>): (r: string)
    ensures PropertyKey(tone) !in ObjectPrototypeMethods && PropertyKey(tone) != "__proto__"
      ==> r == ResolveTone(tone)
  {
    match ReadToneProperty(PropertyKey(tone))
    case None => Professional
    case Some(v) => Interpolate(v)
  }

  /**
   * The tone "constructor" puts the source text of the Object constructor,
   * `function Object() { [native code] }`, where the tone line belongs.
   */
  lemma InheritedToneEscapesTable()
    ensures ToneInstructionAsWritten(Some("constructor")) == "function " + "Object" + "() { [native code] }"
  {
    assert "constructor" !in ToneModifiers;
    assert ReadToneProperty("constructor") == Some(BuiltinFunction("Object"));
  }

  /** So that tone never gets the professional fallback the table promises for unknown tones. */
  lemma InheritedToneMissesFallback()
    ensures ResolveTone(Some("constructor")) == Professional
    ensures ToneInstructionAsWritten(Some("constructor")) != Professional
  {
    assert "constructor" !in ToneModifiers;
    assert ReadToneProperty("constructor") == Some(BuiltinFunction("Object"));
    assert |ToneInstructionAsWritten(Some("constructor"))| == 35;
    assert |Professional| == 91;
  }

  /** The tone "__proto__" puts the rendering of Object.prototype there. */
  lemma PrototypeToneEscapesTable()
    ensures ToneInstructionAsWritten(Some("__proto__")) == "[object Object]"
  {
    assert "__proto__" !in ToneModifiers && "__proto__" !in ObjectPrototypeMethods;
    assert ReadToneProperty("__proto__") == Some(PrototypeObject);
  }

  // ---------------------------------------------------------------------------
  // Prompt assembly
  // ---------------------------------------------------------------------------

  /** The lines of the system prompt before the tone line, and after it. */
  const PromptHeadLines: seq<string> := [
    "Ти — експерт із LinkedIn ghostwriting. Твоє завдання: перетворити вхідний текст на пост, що зупиняє скрол.",
    "",
    ""
  ]
  const PromptTailLines: seq<string> := [
    "",
    "",
    "Структура поста (дотримуйся суворо):",
    "1. Сильний гачок (Hook): перше речення має заінтригувати — питання, провокація або несподіваний факт.",
    "2. Проблема/Контекст: 2-3 речення, що розкривають суть теми.",
    "3. 3-4 пункти (Bullet points): ключові висновки або поради. Кожен пункт починається з \"•\".",
    "4. Висновок + Питання (CTA): сильне завершення + запитання, що провокує коментарі.",
    "",
    "Правила:",
    "- Емодзі — мінімально (не більше 2-3 на весь пост, тільки там де підсилює)",
    "- Пиши професійно, але живо — не корпоративний шаблон",
    "- Додай рівно 3 хештеги в кінці",
    "- Виводь лише текст поста, без пояснень і преамбули"
  ]

  /** Lines joined by line feeds, as a multi-line template literal writes them. */
  function JoinLines(lines: seq<string>): string {
    if lines == [] then "" else if |lines| == 1 then lines[0] else lines[0] + "\n" + JoinLines(lines[1..])
  }

  /** The fixed text of the system prompt before and after the tone line. */
  const PromptHead := JoinLines(PromptHeadLines)
  const PromptTail := JoinLines(PromptTailLines)

  /** The fixed text ahead of the source text in the user message. */
  const UserPrefix := "Згенеруй LinkedIn пост на основі цього матеріалу:\n\n"

  /** The tone line is the only part of the system prompt that varies, and it can be read back. */
  function SystemPrompt(toneInstruction: string): (r: string)
    ensures ToneSlot(r) == Some(toneInstruction)
  {
    BetweenRoundTrip(PromptHead, toneInstruction, PromptTail);
    PromptHead + toneInstruction + PromptTail
  }

  /** The part of `s` between `head` and `tail`, if `s` starts with `head` and ends with `tail`. */
  function Between(s: string, head: string, tail: string): Option<string> {
    if |head| + |tail| <= |s| && s[..|head|] == head && s[|s| - |tail|..] == tail
    then Some(s[|head|..|s| - |tail|])
    else None
  }

  /** Whatever is put between a head and a tail is what Between reads back. */
  lemma BetweenRoundTrip(head: string, x: string, tail: string)
    ensures Between(head + x + tail, head, tail) == Some(x)
  {
    var s := head + x + tail;
    assert s[..|head|] == head;
    assert s[|s| - |tail|..] == tail;
    assert s[|head|..|s| - |tail|] == x;
  }

  /** Reads the tone line back out of a prompt, if the prompt has the template's shape. */
  function ToneSlot(prompt: string): Option<string> {
    Between(prompt, PromptHead, PromptTail)
  }

  /** The user message carries the source text verbatim, untrimmed, after the fixed prefix. */
  function UserMessage(sourceText: string): (r: string)
    ensures StripUserPrefix(r) == Some(sourceText)
  {
    var m := UserPrefix + sourceText;
    assert m[..|UserPrefix|] == UserPrefix;
    assert m[|UserPrefix|..] == sourceText;
    m
  }

  /** Reads the source text back out of a user message. */
  function StripUserPrefix(message: string): Option<string> {
    if |UserPrefix| <= |message| && message[..|UserPrefix|] == UserPrefix
    then Some(message[|UserPrefix|..])
    else None
  }

  // ---------------------------------------------------------------------------
  // The upstream request and its event stream
  // ---------------------------------------------------------------------------

  const ModelName := "claude-3-5-sonnet-20240620"
  const MaxTokens: nat := 1024

  datatype Message = Message(role: string, content: string)

  /** The arguments of the one streaming call made to the generation service. */
  datatype UpstreamRequest = UpstreamRequest(model: string, maxTokens: nat, system: string, messages: seq<Message>)

  function BuildRequest(sourceText: string, tone: Option<string>): (r: UpstreamRequest)
    ensures r.model == ModelName && r.maxTokens == MaxTokens
    ensures ToneSlot(r.system) == Some(ResolveTone(tone))
    ensures |r.messages| == 1 && r.messages[0].role == "user"
    ensures StripUserPrefix(r.messages[0].content) == Some(sourceText)
  {
    UpstreamRequest(ModelName, MaxTokens, SystemPrompt(ResolveTone(tone)), [Message("user", UserMessage(sourceText))])
  }

  /**
   * The request as the handler builds it, with the tone looked up as written.
   * It is the request BuildRequest gives unless the tone names a key that
   * Object.prototype supplies.
   */
  function BuildRequestAsWritten(sourceText: string, tone: Option<string>): (r: UpstreamRequest)
    ensures ToneSlot(r.system) == Some(ToneInstructionAsWritten(tone))
    ensures PropertyKey(tone) !in ObjectPrototypeMethods && PropertyKey(tone) != "__proto__"
      ==> r == BuildRequest(sourceText, tone)
  {
    UpstreamRequest(ModelName, MaxTokens, SystemPrompt(ToneInstructionAsWritten(tone)), [Message("user", UserMessage(sourceText))])
  }

  datatype Delta = TextDelta(text: string) | InputJsonDelta(partialJson: string)
  datatype EventKind = MessageStart | MessageDelta | MessageStop | ContentBlockStart | ContentBlockStop
  /** An event of the generation service's stream. */
  datatype Event = ContentBlockDelta(delta: Delta) | Lifecycle(kind: EventKind)

  /** The events the service delivers, and whether iterating them throws after the last one. */
  datatype Upstream = Upstream(events: seq<Event>, fails: bool)

  /** `chunk.type === "content_block_delta" && chunk.delta.type === "text_delta"` */
  predicate IsTextDelta(e: Event) {
    e.ContentBlockDelta? && e.delta.TextDelta?
  }

  /** The texts of the text-delta events, in stream order. */
  function TextDeltas(events: seq<Event>): (texts: seq<string>)
    ensures |texts| <= |events|
  {
    if events == [] then []
    else (if IsTextDelta(events[0]) then [events[0].delta.text] else []) + TextDeltas(events[1..])
  }

  /** Relaying a stream in two parts relays the parts one after the other. */
  lemma {:induction false} TextDeltasAppend(a: seq<Event>, b: seq<Event>)
    ensures TextDeltas(a + b) == TextDeltas(a) + TextDeltas(b)
  {
    if a != [] {
      assert (a + b)[1..] == a[1..] + b;
      TextDeltasAppend(a[1..], b);
    } else {
      assert a + b == b;
    }
  }

  /** A text is relayed exactly when some text-delta event carries it: nothing dropped, nothing invented. */
  lemma {:induction false} TextDeltaMembership(events: seq<Event>, t: string)
    ensures t in TextDeltas(events) <==> exists i :: 0 <= i < |events| && events[i] == ContentBlockDelta(TextDelta(t))
  {
    if events != [] {
      TextDeltaMembership(events[1..], t);
      if t in TextDeltas(events[1..]) {
        var i :| 0 <= i < |events[1..]| && events[1..][i] == ContentBlockDelta(TextDelta(t));
        assert events[i + 1] == ContentBlockDelta(TextDelta(t));
      }
      if i :| 0 <= i < |events| && events[i] == ContentBlockDelta(TextDelta(t)) {
        if i > 0 {
          assert events[1..][i - 1] == events[i];
        }
      }
    }
  }

  /** A stream without text deltas relays nothing. */
  lemma {:induction false} OnlyTextDeltasRelayed(events: seq<Event>)
    requires forall i :: 0 <= i < |events| ==> !IsTextDelta(events[i])
    ensures TextDeltas(events) == []
  {
    if events != [] {
      OnlyTextDeltasRelayed(events[1..]);
    }
  }

  /** What a stream cut short relays is a prefix of what the whole stream relays. */
  lemma TruncatedStreamRelaysPrefix(events: seq<Event>, k: nat)
    requires k <= |events|
    ensures TextDeltas(events[..k]) <= TextDeltas(events)
  {
    assert events == events[..k] + events[k..];
    TextDeltasAppend(events[..k], events[k..]);
  }

  /** The chunks the relay enqueues: one encoded chunk per text. */
  function EncodeAll(texts: seq<string>, encode: string -> Js.Bytes): (chunks: seq<Js.Bytes>)
    ensures |chunks| == |texts|
    ensures forall i :: 0 <= i < |texts| ==> chunks[i] == encode(texts[i])
  {
    if texts == [] then [] else [encode(texts[0])] + EncodeAll(texts[1..], encode)
  }

  /** Encoding two runs of texts encodes the first, then the second. */
  lemma EncodeAllAppend(a: seq<string>, b: seq<string>, encode: string -> Js.Bytes)
    ensures EncodeAll(a + b, encode) == EncodeAll(a, encode) + EncodeAll(b, encode)
  {
  }

  function Concat(texts: seq<string>): string {
    if texts == [] then "" else texts[0] + Concat(texts[1..])
  }

  function Flatten(chunks: seq<Js.Bytes>): Js.Bytes {
    if chunks == [] then [] else chunks[0] + Flatten(chunks[1..])
  }

  /**
   * With an encoder that maps concatenation to concatenation (as UTF-8 does on
   * well-formed text), the body's bytes are the encoding of all relayed text.
   */
  lemma {:induction false} RelayedBytes(texts: seq<string>, encode: string -> Js.Bytes)
    requires forall a, b :: encode(a + b) == encode(a) + encode(b)
    ensures Flatten(EncodeAll(texts, encode)) == encode(Concat(texts))
  {
    if texts == [] {
      assert "" + "" == "";
      assert |encode("")| == 0;
    } else {
      RelayedBytes(texts[1..], encode);
      assert EncodeAll(texts, encode)[1..] == EncodeAll(texts[1..], encode);
    }
  }

  // ---------------------------------------------------------------------------
  // The relay and the handler
  // ---------------------------------------------------------------------------

  /**
   * The body of the stream's start(): forwards the text of every text delta,
   * in order, and closes the controller once whether or not iteration throws.
   * `threw` says that the iteration threw (after the events it delivered).
   */
  method Relay(upstream: Upstream, encode: string -> Js.Bytes, controller: Streams.Controller) returns (threw: bool)
    requires controller.Valid() && !controller.closed
    modifies controller
    ensures controller.Valid() && controller.closed
    ensures controller.closeCount == old(controller.closeCount) + 1
    ensures controller.queue == old(controller.queue) + EncodeAll(TextDeltas(upstream.events), encode)
    ensures threw == upstream.fails
  {
    var events := upstream.events;
    var i := 0;
    while i < |events|
      invariant 0 <= i <= |events|
      invariant controller.Valid() && !controller.closed
      invariant controller.closeCount == old(controller.closeCount)
      invariant controller.queue == old(controller.queue) + EncodeAll(TextDeltas(events[..i]), encode)
    {
      var chunk := events[i];
      ghost var relayed := TextDeltas(events[..i]);
      assert events[..i + 1] == events[..i] + [chunk];
      TextDeltasAppend(events[..i], [chunk]);
      EncodeAllAppend(relayed, TextDeltas([chunk]), encode);
      assert [chunk][1..] == [];
      if chunk.ContentBlockDelta? && chunk.delta.TextDelta? {
        assert EncodeAll(TextDeltas([chunk]), encode) == [encode(chunk.delta.text)];
        Sequences.AppendAssociative(old(controller.queue), EncodeAll(relayed, encode), [encode(chunk.delta.text)]);
        controller.Enqueue(encode(chunk.delta.text));
      } else {
        assert EncodeAll(TextDeltas([chunk]), encode) == [];
        assert EncodeAll(relayed, encode) + [] == EncodeAll(relayed, encode);
      }
      i := i + 1;
    }
    assert events[..i] == events;
    threw := upstream.fails;
    controller.Close();
  }

  datatype Header = Header(name: string, value: string)

  /**
   * A response body: a string, or the byte chunks of the stream together with
   * whether it was closed and whether start() rejected after closing it.
   */
  datatype Body = Text(text: string) | Stream(chunks: seq<Js.Bytes>, closed: bool, startRejected: bool)

  datatype Response = Response(status: nat, headers: seq<Header>, body: Body)

  const StreamHeaders := [Header("Content-Type", "text/plain; charset=utf-8"), Header("X-Content-Type-Options", "nosniff")]

  function BadRequest(): Response {
    Response(400, [Header("Content-Type", "application/json")], Text(TooShortBody))
  }

  /**
   * POST /api/generate. `service` stands for the generation service: the stream
   * it returns for a request. `calls` lists the requests sent to it.
   */
  method Post(sourceText: Option<string>, tone: Option<string>,
              service: UpstreamRequest -> Upstream, encode: string -> Js.Bytes)
    returns (response: Response, calls: seq<UpstreamRequest>)
    ensures response.status == 400 <==> TooShort(sourceText)
    ensures TooShort(sourceText) ==> response == BadRequest() && calls == []
    ensures !TooShort(sourceText) ==>
      calls == [BuildRequest(sourceText.value, tone)]
      && response.status == 200 && response.headers == StreamHeaders
      && response.body == Stream(EncodeAll(TextDeltas(service(calls[0]).events), encode), true, service(calls[0]).fails)
  {
    if TooShort(sourceText) {
      return BadRequest(), [];
    }
    var request := BuildRequest(sourceText.value, tone);
    var upstream := service(request);
    var controller := new Streams.Controller();
    var threw := Relay(upstream, encode, controller);
    assert controller.queue == EncodeAll(TextDeltas(upstream.events), encode);
    calls := [request];
    response := Response(200, StreamHeaders, Stream(controller.queue, controller.closed, threw));
  }
}
