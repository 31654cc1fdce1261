/** The prompt assembly of semantix/inference.py: the message sequences sent to a model backend
    for the main call (PromptInfo), for extracting a value from a free-text reply
    (ExtractOutputPromptInfo) and for asking the model to repair a reply (OutputFixPromptInfo).

    The backend (BaseLLM) and the renderings that live in semantix.types (Information.get_content,
    str() of a tool, a type explanation and an output hint) are not visible from here; they enter
    as the datatypes `Model` and `Renderers`, whose function fields are left uninterpreted. */
module Inference {
  import opened Results
  import opened Text

  // =====================================================================================
  // messages
  // =====================================================================================

  datatype Role = System | User

  /** A typed part of a multi-part message: `{"type": "text", "text": ...}` or a media part. */
  datatype ContentPart = TextPart(text: string) | MediaPart(kind: string, payload: string)

  /** One element of `contents` in `get_info_msg`: a plain string or a content-part dict. */
  datatype Entry = Plain(text: string) | Part(part: ContentPart)

  /** What `Information.get_content` returns: one element, or a list of them. */
  datatype ItemContent = Single(entry: Entry) | Many(entries: seq<Entry>)

  /** A message's content: one string, or a list of content parts. */
  datatype Content = TextContent(text: string) | PartsContent(parts: seq<Entry>)

  datatype Message = Message(role: Role, content: Content)

  /** A value shown to the model; `kind` is its type tag ("Text", "Image", "Video", ...) and
      `payload` stands for the value itself, which only `get_content` looks at. */
  datatype Information = Information(kind: string, name: string, signature: string, payload: string)

  /** Tools, type explanations and output hints are known here only through their str(). */
  datatype Tool = Tool(name: string)
  datatype TypeExplanation = TypeExplanation(typeName: string)
  datatype OutputHint = OutputHint(signature: string)

  /** The renderings semantix.types provides: `Information.get_content(contains_media)` and
      str() of a tool, a type explanation and an output hint. */
  datatype Renderers = Renderers(
    content: (Information, bool) -> ItemContent,
    tool: Tool -> string,
    explanation: TypeExplanation -> string,
    hint: OutputHint -> string)

  /** The backend's conventions: its opening message, `get_message_desc`, and the two fixed
      instructions that end the extraction and the repair prompts. */
  datatype Model = Model(
    systemMessage: Message,
    desc: string -> string,
    extractInstruction: string,
    fixInstruction: string)

  function UserText(text: string): Message
  {
    Message(User, TextContent(text))
  }

  /** `{"role": "user", "content": f"{model.get_message_desc(key)}\n{text}"}` */
  function Labelled(model: Model, key: string, text: string): Message
  {
    UserText(model.desc(key) + "\n" + text)
  }

  /** `{"role": "user", "content": "\n".join([model.get_message_desc(key), *items])}` */
  function Listed(model: Model, key: string, items: seq<string>): Message
  {
    UserText(Join([model.desc(key)] + items, "\n"))
  }

  // =====================================================================================
  // get_info_msg: one message for a batch of informations
  // =====================================================================================

  predicate IsMedia(info: Information)
  {
    info.kind == "Video" || info.kind == "Image"
  }

  /** `contains_media`: some item is a video or an image. */
  function AnyMedia(inputs: seq<Information>): (b: bool)
    ensures b <==> exists i :: 0 <= i < |inputs| && IsMedia(inputs[i])
  {
    if inputs == [] then false
    else
      assert forall i :: 1 <= i < |inputs| ==> inputs[i] == inputs[1..][i - 1];
      IsMedia(inputs[0]) || AnyMedia(inputs[1..])
  }

  /** The first element of `contents`: the label, as a string or as a text part. */
  function LabelEntry(key: string, media: bool): Entry
  {
    if media then Part(TextPart(key)) else Plain(key)
  }

  /** What the loop of `get_info_msg` has added to `contents` after the items `items`. A
      non-list content is appended; a list content is extended with itself
      (`content.extend(content)`), which leaves `contents` as it was. */
  function Appended(items: seq<Information>, media: bool, r: Renderers): seq<Entry>
  {
    if items == [] then []
    else
      var last := r.content(items[|items| - 1], media);
      Appended(items[..|items| - 1], media, r) + (if last.Single? then [last.entry] else [])
  }

  /** The strings of `contents`, or the TypeError `"\n".join` raises on an element that is not
      a string. Only the kind of the error is modelled: CPython's message also names the index of
      the offending item and its type, which this fixed text does not carry. */
  function Texts(entries: seq<Entry>): (r: Result<seq<string>>)
    ensures r.Ok? <==> forall i :: 0 <= i < |entries| ==> entries[i].Plain?
    ensures r.Ok? ==> |r.value| == |entries| && forall i :: 0 <= i < |entries| ==> r.value[i] == entries[i].text
    ensures r.Err? ==> r.error.TypeError?
  {
    if entries == [] then Ok([])
    else if entries[0].Part? then Err(TypeError("sequence item: expected str instance, dict found"))
    else
      var rest :- Texts(entries[1..]);
      Ok([entries[0].text] + rest)
  }

  /** The returned message, given the label and what the loop added: the list of parts in media
      mode, otherwise the elements joined with newlines. */
  function Assemble(key: string, media: bool, added: seq<Entry>): Result<Message>
  {
    var contents := [LabelEntry(key, media)] + added;
    if media then Ok(Message(User, PartsContent(contents)))
    else
      var texts :- Texts(contents);
      Ok(UserText(Join(texts, "\n")))
  }

  /** The message `get_info_msg(inputs, model, info_type)` returns, or the error it raises. */
  function InfoMessage(inputs: seq<Information>, model: Model, r: Renderers, infoType: string): Result<Message>
  {
    var media := AnyMedia(inputs);
    Assemble(model.desc(infoType), media, Appended(inputs, media, r))
  }

  /** The positions of the items whose content is not a list, in increasing order. */
  function SingleIndices(items: seq<Information>, media: bool, r: Renderers): seq<int>
  {
    if items == [] then []
    else
      var n := |items| - 1;
      SingleIndices(items[..n], media, r) + (if r.content(items[n], media).Single? then [n] else [])
  }

  /** Each non-list content is added exactly once and in input order; a list content adds
      nothing. */
  lemma {:induction false} AppendedSingles(items: seq<Information>, media: bool, r: Renderers)
    ensures var idx := SingleIndices(items, media, r);
      && (forall j :: 0 <= j < |idx| ==> 0 <= idx[j] < |items| && r.content(items[idx[j]], media).Single?)
      && (forall j, k :: 0 <= j < k < |idx| ==> idx[j] < idx[k])
      && (forall i :: 0 <= i < |items| && r.content(items[i], media).Single? ==> i in idx)
      && |Appended(items, media, r)| == |idx|
      && forall j :: 0 <= j < |idx| ==> Appended(items, media, r)[j] == r.content(items[idx[j]], media).entry
  {
    if items != [] {
      var n := |items| - 1;
      var init := items[..n];
      AppendedSingles(init, media, r);
      var idx0 := SingleIndices(init, media, r);
      forall j | 0 <= j < |idx0| ensures items[idx0[j]] == init[idx0[j]] {
      }
      forall i | 0 <= i < n ensures items[i] == init[i] {
      }
    }
  }

  /** With a video or an image among the items, the message is a list of parts led by the
      label's text part and followed by what the loop added. */
  lemma InfoMessageMedia(inputs: seq<Information>, model: Model, r: Renderers, infoType: string)
    requires exists i :: 0 <= i < |inputs| && IsMedia(inputs[i])
    ensures var added := Appended(inputs, true, r);
      InfoMessage(inputs, model, r, infoType)
        == Ok(Message(User, PartsContent([Part(TextPart(model.desc(infoType)))] + added)))
  {
  }

  /** Without media the message is one string: the label, then what the loop added, joined with
      newlines; it raises TypeError exactly when an added element is not a string. */
  lemma InfoMessageText(inputs: seq<Information>, model: Model, r: Renderers, infoType: string)
    requires forall i :: 0 <= i < |inputs| ==> !IsMedia(inputs[i])
    ensures var added := Appended(inputs, false, r);
      && (InfoMessage(inputs, model, r, infoType).Ok? <==> forall j :: 0 <= j < |added| ==> added[j].Plain?)
      && (InfoMessage(inputs, model, r, infoType).Ok? ==>
            InfoMessage(inputs, model, r, infoType)
              == Ok(UserText(Join([model.desc(infoType)] + seq(|added|, j requires 0 <= j < |added| => added[j].text), "\n"))))
  {
    assert !AnyMedia(inputs);
    assert InfoMessage(inputs, model, r, infoType) == Assemble(model.desc(infoType), false, Appended(inputs, false, r));
    AssembleText(model.desc(infoType), Appended(inputs, false, r));
  }

  lemma AssembleText(key: string, added: seq<Entry>)
    ensures Assemble(key, false, added).Ok? <==> forall j :: 0 <= j < |added| ==> added[j].Plain?
    ensures Assemble(key, false, added).Ok? ==>
      Assemble(key, false, added)
        == Ok(UserText(Join([key] + seq(|added|, j requires 0 <= j < |added| => added[j].text), "\n")))
  {
    var contents := [Plain(key)] + added;
    var t := Texts(contents);
    assert Assemble(key, false, added) == if t.Ok? then Ok(UserText(Join(t.value, "\n"))) else Err(t.error);
    if t.Ok? {
      forall j | 0 <= j < |added| ensures added[j].Plain? {
        assert contents[j + 1] == added[j];
      }
      assert t.value == [key] + seq(|added|, j requires 0 <= j < |added| => added[j].text);
    } else {
      var i :| 0 <= i < |contents| && !contents[i].Plain?;
      assert i > 0 && contents[i] == added[i - 1];
    }
  }

  // ---- the evident intent of `content.extend(content)` ----

  function EntriesOf(c: ItemContent): seq<Entry>
  {
    if c.Single? then [c.entry] else c.entries
  }

  /** The loop with `contents.extend(content)`: a list content contributes all its elements. */
  function Flattened(items: seq<Information>, media: bool, r: Renderers): seq<Entry>
  {
    if items == [] then []
    else Flattened(items[..|items| - 1], media, r) + EntriesOf(r.content(items[|items| - 1], media))
  }

  /** `get_info_msg` with `contents.extend(content)` in place of `content.extend(content)`. */
  function InfoMessageIntended(inputs: seq<Information>, model: Model, r: Renderers, infoType: string): Result<Message>
  {
    var media := AnyMedia(inputs);
    Assemble(model.desc(infoType), media, Flattened(inputs, media, r))
  }

  /** The items' parts, item after item, in input order. */
  function AllEntries(items: seq<Information>, media: bool, r: Renderers): seq<Entry>
  {
    if items == [] then [] else EntriesOf(r.content(items[0], media)) + AllEntries(items[1..], media, r)
  }

  lemma {:induction false} AllEntriesSnoc(items: seq<Information>, x: Information, media: bool, r: Renderers)
    ensures AllEntries(items + [x], media, r) == AllEntries(items, media, r) + EntriesOf(r.content(x, media))
  {
    if items != [] {
      assert (items + [x])[1..] == items[1..] + [x];
      AllEntriesSnoc(items[1..], x, media, r);
    }
  }

  /** The intended loop keeps every part of every item, in input order. */
  lemma {:induction false} FlattenedKeepsAllParts(items: seq<Information>, media: bool, r: Renderers)
    ensures Flattened(items, media, r) == AllEntries(items, media, r)
  {
    if items != [] {
      var n := |items| - 1;
      FlattenedKeepsAllParts(items[..n], media, r);
      AllEntriesSnoc(items[..n], items[n], media, r);
      assert items[..n] + [items[n]] == items;
    }
  }

  /** When every item renders as one part, the intended media message has the label part plus
      one part per item, in input order. */
  lemma {:induction false} IntendedOnePartPerItem(items: seq<Information>, media: bool, r: Renderers)
    requires forall i :: 0 <= i < |items| ==> |EntriesOf(r.content(items[i], media))| == 1
    ensures |Flattened(items, media, r)| == |items|
    ensures forall i :: 0 <= i < |items| ==> Flattened(items, media, r)[i] == EntriesOf(r.content(items[i], media))[0]
  {
    if items != [] {
      var n := |items| - 1;
      IntendedOnePartPerItem(items[..n], media, r);
      forall i | 0 <= i < n ensures items[..n][i] == items[i] {
      }
    }
  }

  /** As written, an image whose content is a one-part list leaves only the label part; the
      intended loop keeps the image's part. */
  lemma ListContentDropped(info: Information, e: Entry, model: Model, r: Renderers, infoType: string)
    requires IsMedia(info) && r.content(info, true) == Many([e])
    ensures InfoMessage([info], model, r, infoType)
         == Ok(Message(User, PartsContent([Part(TextPart(model.desc(infoType)))])))
    ensures InfoMessageIntended([info], model, r, infoType)
         == Ok(Message(User, PartsContent([Part(TextPart(model.desc(infoType))), e])))
  {
    assert IsMedia([info][0]);
    assert AnyMedia([info]);
    assert [info][..0] == [];
    assert Appended([info], true, r) == [];
    assert Flattened([info], true, r) == [e];
    assert InfoMessage([info], model, r, infoType) == Assemble(model.desc(infoType), true, []);
    assert InfoMessageIntended([info], model, r, infoType) == Assemble(model.desc(infoType), true, [e]);
    var head := LabelEntry(model.desc(infoType), true);
    assert head == Part(TextPart(model.desc(infoType)));
    assert [head] + [] == [head];
    assert [head] + [e] == [Part(TextPart(model.desc(infoType))), e];
  }

  // =====================================================================================
  // PromptInfo.get_messages: the order of the main prompt
  // =====================================================================================

  /** The message positions of the main prompt. */
  datatype Slot =
    | SystemSlot
    | InformationsSlot
    | InputInformationsSlot
    | ContextSlot
    | TypeExplanationsSlot
    | ReturnHintSlot
    | ActionSlot
    | ToolsSlot

  /** The protocol order: system, informations, input_informations, context, type_explanations,
      return_hint, action, tools. */
  function Rank(s: Slot): nat
  {
    match s
    case SystemSlot => 0
    case InformationsSlot => 1
    case InputInformationsSlot => 2
    case ContextSlot => 3
    case TypeExplanationsSlot => 4
    case ReturnHintSlot => 5
    case ActionSlot => 6
    case ToolsSlot => 7
  }

  function Count(b: bool): nat
  {
    if b then 1 else 0
  }

  class PromptInfo {
    const action: string
    const context: string
    const informations: seq<Information>
    const inputInformations: seq<Information>
    const tools: seq<Tool>
    const returnHint: OutputHint
    const typeExplanations: seq<TypeExplanation>

    constructor(action: string, context: string, informations: seq<Information>,
                inputInformations: seq<Information>, tools: seq<Tool>, returnHint: OutputHint,
                typeExplanations: seq<TypeExplanation>)
      ensures this.action == action && this.context == context
      ensures this.informations == informations && this.inputInformations == inputInformations
      ensures this.tools == tools && this.returnHint == returnHint
      ensures this.typeExplanations == typeExplanations
    {
      this.informations := informations;
      this.context := context;
      this.inputInformations := inputInformations;
      this.returnHint := returnHint;
      this.typeExplanations := typeExplanations;
      this.action := action;
      this.tools := tools;
    }

    /** Whether the prompt has a message in slot `s`: the optional blocks only when non-empty. */
    predicate Emits(s: Slot)
    {
      match s
      case InformationsSlot => informations != []
      case InputInformationsSlot => inputInformations != []
      case ContextSlot => context != ""
      case TypeExplanationsSlot => typeExplanations != []
      case ToolsSlot => tools != []
      case _ => true
    }

    /** How many of the optional blocks are non-empty. */
    function OptionalCount(): nat
    {
      Count(informations != []) + Count(inputInformations != []) + Count(context != "")
        + Count(typeExplanations != []) + Count(tools != [])
    }

    /** The slots that get a message, as `get_messages` visits them. */
    function EmittedSlots(): seq<Slot>
    {
      [SystemSlot]
        + (if informations != [] then [InformationsSlot] else [])
        + (if inputInformations != [] then [InputInformationsSlot] else [])
        + FixedSlots()
    }

    /** Every slot gets at most one message, exactly when it is emitted, in protocol order. */
    lemma EmittedSlotsInOrder()
      ensures var e := EmittedSlots();
        && |e| == 3 + OptionalCount()
        && e[0] == SystemSlot
        && (forall j, k :: 0 <= j < k < |e| ==> Rank(e[j]) < Rank(e[k]))
        && (forall s :: s in e <==> Emits(s))
    {
      var e := EmittedSlots();
      forall j, k | 0 <= j < k < |e| ensures Rank(e[j]) < Rank(e[k]) {
        RanksIncrease(j, k);
      }
    }

    lemma RanksIncrease(j: int, k: int)
      requires 0 <= j < k < |EmittedSlots()|
      ensures Rank(EmittedSlots()[j]) < Rank(EmittedSlots()[k])
    {
      var e := EmittedSlots();
      var ranks := seq(|e|, i requires 0 <= i < |e| => Rank(e[i]));
      assert forall i :: 0 <= i < |e| - 1 ==> ranks[i] < ranks[i + 1];
      Increasing(ranks, j, k);
    }

    /** The message of slot `s`, or the error building it raises. */
    function SlotMessage(s: Slot, model: Model, r: Renderers): Result<Message>
    {
      match s
      case SystemSlot => Ok(model.systemMessage)
      case InformationsSlot => InfoMessage(informations, model, r, "informations")
      case InputInformationsSlot => InfoMessage(inputInformations, model, r, "input_informations")
      case ContextSlot => Ok(Labelled(model, "context", context))
      case TypeExplanationsSlot => Ok(Listed(model, "type_explanations", Map(r.explanation, typeExplanations)))
      case ReturnHintSlot => Ok(Labelled(model, "return_hint", r.hint(returnHint)))
      case ActionSlot => Ok(Labelled(model, "action", action))
      case ToolsSlot => Ok(Listed(model, "tools", Map(r.tool, tools)))
    }

    /** The message of a non-empty information block, or none for an empty one. */
    function InfoBlock(inputs: seq<Information>, model: Model, r: Renderers, infoType: string): Result<seq<Message>>
    {
      if inputs == [] then Ok([])
      else
        var m :- InfoMessage(inputs, model, r, infoType);
        Ok([m])
    }

    /** What `get_messages(model)` returns, or the error it raises. */
    function Messages(model: Model, r: Renderers): Result<seq<Message>>
    {
      var infos :- InfoBlock(informations, model, r, "informations");
      var inputs :- InfoBlock(inputInformations, model, r, "input_informations");
      Ok([model.systemMessage] + infos + inputs + FixedMessages(model, r))
    }

    /** `msgs` holds, position by position, the messages of `slots`. */
    predicate Matches(slots: seq<Slot>, msgs: seq<Message>, model: Model, r: Renderers)
    {
      |slots| == |msgs|
      && forall i :: 0 <= i < |slots| ==> SlotMessage(slots[i], model, r) == Ok(msgs[i])
    }

    lemma MatchesConcat(s1: seq<Slot>, m1: seq<Message>, s2: seq<Slot>, m2: seq<Message>, model: Model, r: Renderers)
      requires Matches(s1, m1, model, r) && Matches(s2, m2, model, r)
      ensures Matches(s1 + s2, m1 + m2, model, r)
    {
      forall i | |s1| <= i < |s1| + |s2|
        ensures SlotMessage((s1 + s2)[i], model, r) == Ok((m1 + m2)[i])
      {
        assert (s1 + s2)[i] == s2[i - |s1|] && (m1 + m2)[i] == m2[i - |s1|];
      }
    }

    /** The messages that follow the information blocks. */
    function FixedMessages(model: Model, r: Renderers): seq<Message>
    {
      (if context != "" then [Labelled(model, "context", context)] else [])
        + (if typeExplanations != []
           then [Listed(model, "type_explanations", Map(r.explanation, typeExplanations))] else [])
        + [Labelled(model, "return_hint", r.hint(returnHint)), Labelled(model, "action", action)]
        + (if tools != [] then [Listed(model, "tools", Map(r.tool, tools))] else [])
    }

    /** The slots that follow the information blocks. */
    function FixedSlots(): seq<Slot>
    {
      (if context != "" then [ContextSlot] else [])
        + (if typeExplanations != [] then [TypeExplanationsSlot] else [])
        + [ReturnHintSlot, ActionSlot]
        + (if tools != [] then [ToolsSlot] else [])
    }

    lemma FixedMatches(model: Model, r: Renderers)
      ensures Matches(FixedSlots(), FixedMessages(model, r), model, r)
    {
      var ctx := if context != "" then [Labelled(model, "context", context)] else [];
      var tes := if typeExplanations != []
                 then [Listed(model, "type_explanations", Map(r.explanation, typeExplanations))] else [];
      var fixed := [Labelled(model, "return_hint", r.hint(returnHint)), Labelled(model, "action", action)];
      var tls := if tools != [] then [Listed(model, "tools", Map(r.tool, tools))] else [];
      var e4 := if context != "" then [ContextSlot] else [];
      var e5 := if typeExplanations != [] then [TypeExplanationsSlot] else [];
      var e6 := [ReturnHintSlot, ActionSlot];
      var e7 := if tools != [] then [ToolsSlot] else [];
      assert Matches(e4, ctx, model, r);
      assert Matches(e5, tes, model, r);
      assert Matches(e6, fixed, model, r);
      assert Matches(e7, tls, model, r);
      MatchesConcat(e4, ctx, e5, tes, model, r);
      MatchesConcat(e4 + e5, ctx + tes, e6, fixed, model, r);
      MatchesConcat(e4 + e5 + e6, ctx + tes + fixed, e7, tls, model, r);
    }

    lemma HeadMatches(model: Model, r: Renderers)
      requires InfoBlock(informations, model, r, "informations").Ok?
      requires InfoBlock(inputInformations, model, r, "input_informations").Ok?
      ensures Matches([SystemSlot]
                        + (if informations != [] then [InformationsSlot] else [])
                        + (if inputInformations != [] then [InputInformationsSlot] else []),
                      [model.systemMessage]
                        + InfoBlock(informations, model, r, "informations").value
                        + InfoBlock(inputInformations, model, r, "input_informations").value,
                      model, r)
    {
      var infos := InfoBlock(informations, model, r, "informations").value;
      var inputs := InfoBlock(inputInformations, model, r, "input_informations").value;
      var e2 := if informations != [] then [InformationsSlot] else [];
      var e3 := if inputInformations != [] then [InputInformationsSlot] else [];
      assert Matches([SystemSlot], [model.systemMessage], model, r);
      InfoBlockMatches(informations, InformationsSlot, "informations", model, r);
      InfoBlockMatches(inputInformations, InputInformationsSlot, "input_informations", model, r);
      MatchesConcat([SystemSlot], [model.systemMessage], e2, infos, model, r);
      MatchesConcat([SystemSlot] + e2, [model.systemMessage] + infos, e3, inputs, model, r);
    }

    /** The main prompt holds exactly one message per emitted slot, each the message of its
        slot, so its messages come in protocol order. */
    lemma MessagesFollowSlots(model: Model, r: Renderers)
      requires Messages(model, r).Ok?
      ensures Matches(EmittedSlots(), Messages(model, r).value, model, r)
    {
      var infos := InfoBlock(informations, model, r, "informations").value;
      var inputs := InfoBlock(inputInformations, model, r, "input_informations").value;
      var head := [SystemSlot]
        + (if informations != [] then [InformationsSlot] else [])
        + (if inputInformations != [] then [InputInformationsSlot] else []);
      HeadMatches(model, r);
      FixedMatches(model, r);
      MatchesConcat(head, [model.systemMessage] + infos + inputs, FixedSlots(), FixedMessages(model, r), model, r);
    }

    /** A non-empty information block is the message of its slot; an empty one is none. */
    lemma InfoBlockMatches(inputs: seq<Information>, s: Slot, infoType: string, model: Model, r: Renderers)
      requires s == InformationsSlot || s == InputInformationsSlot
      requires s == InformationsSlot ==> inputs == informations && infoType == "informations"
      requires s == InputInformationsSlot ==> inputs == inputInformations && infoType == "input_informations"
      requires InfoBlock(inputs, model, r, infoType).Ok?
      ensures Matches(if inputs != [] then [s] else [], InfoBlock(inputs, model, r, infoType).value, model, r)
    {
    }

    /** The main prompt opens with the backend's system message, has one message per non-empty
        optional block, keeps the return-hint message immediately before the action message (and
        only the tools message after them), and every message after the first is the user's. */
    lemma MessagesShape(model: Model, r: Renderers)
      requires Messages(model, r).Ok?
      ensures var msgs := Messages(model, r).value;
        var k := |msgs| - (if tools != [] then 3 else 2);
        && |msgs| == 3 + OptionalCount()
        && msgs[0] == model.systemMessage
        && msgs[k] == Labelled(model, "return_hint", r.hint(returnHint))
        && msgs[k + 1] == Labelled(model, "action", action)
        && (tools != [] ==> msgs[k + 2] == Listed(model, "tools", Map(r.tool, tools)))
        && forall i :: 1 <= i < |msgs| ==> msgs[i].role == User
    {
      var msgs := Messages(model, r).value;
      var e := EmittedSlots();
      MessagesFollowSlots(model, r);
      EmittedSlotsInOrder();
      var k := |e| - (if tools != [] then 3 else 2);
      assert e[k] == ReturnHintSlot && e[k + 1] == ActionSlot;
      assert tools != [] ==> e[k + 2] == ToolsSlot;
      MessagesRoles(model, r);
    }

    /** Every message after the system message is the user's. */
    lemma MessagesRoles(model: Model, r: Renderers)
      requires Messages(model, r).Ok?
      ensures var msgs := Messages(model, r).value;
        forall i :: 1 <= i < |msgs| ==> msgs[i].role == User
    {
      var msgs := Messages(model, r).value;
      var e := EmittedSlots();
      MessagesFollowSlots(model, r);
      EmittedSlotsInOrder();
      forall i | 1 <= i < |msgs| ensures msgs[i].role == User {
        SlotRole(e, i, msgs[i], model, r);
      }
    }

    /** A slot after the first of the emitted ones holds a user message. */
    lemma SlotRole(e: seq<Slot>, i: int, m: Message, model: Model, r: Renderers)
      requires e == EmittedSlots() && 1 <= i < |e|
      requires Rank(e[0]) < Rank(e[i]) && SlotMessage(e[i], model, r) == Ok(m)
      ensures m.role == User
    {
      assert e[i] != SystemSlot;
      if e[i] == InformationsSlot {
        InfoMessageRole(informations, model, r, "informations");
      } else if e[i] == InputInformationsSlot {
        InfoMessageRole(inputInformations, model, r, "input_informations");
      }
    }

    /** The main prompt is built exactly when neither non-empty information block raises. */
    lemma MessagesOk(model: Model, r: Renderers)
      ensures Messages(model, r).Ok? <==>
        ((informations == [] || InfoMessage(informations, model, r, "informations").Ok?)
         && (inputInformations == [] || InfoMessage(inputInformations, model, r, "input_informations").Ok?))
    {
    }

    /** A prompt that cannot be built raises the error of the first information block that
        does. */
    lemma MessagesErr(model: Model, r: Renderers)
      requires Messages(model, r).Err?
      ensures (informations != [] && InfoMessage(informations, model, r, "informations").Err?)
           || (inputInformations != [] && InfoMessage(inputInformations, model, r, "input_informations").Err?)
      ensures if informations != [] && InfoMessage(informations, model, r, "informations").Err?
        then Messages(model, r).error == InfoMessage(informations, model, r, "informations").error
        else Messages(model, r).error == InfoMessage(inputInformations, model, r, "input_informations").error
      ensures Messages(model, r).error.TypeError?
    {
    }

    /** `get_info_msg(inputs, model, info_type)`. */
    method GetInfoMsg(inputs: seq<Information>, model: Model, r: Renderers, infoType: string)
      returns (msg: Result<Message>)
      ensures msg == InfoMessage(inputs, model, r, infoType)
    {
      var containsMedia := AnyMedia(inputs);
      var contents := [LabelEntry(model.desc(infoType), containsMedia)];
      var i := 0;
      while i < |inputs|
        invariant 0 <= i <= |inputs|
        invariant contents == [LabelEntry(model.desc(infoType), containsMedia)] + Appended(inputs[..i], containsMedia, r)
      {
        assert inputs[..i + 1][..i] == inputs[..i];
        var content := r.content(inputs[i], containsMedia);
        if content.Many? {
          // content.extend(content): the item's own list grows, `contents` does not
          var own := content.entries;
          own := own + own;
        } else {
          contents := contents + [content.entry];
        }
        i := i + 1;
      }
      assert inputs[..|inputs|] == inputs;
      if containsMedia {
        msg := Ok(Message(User, PartsContent(contents)));
      } else {
        var texts :- Texts(contents);
        msg := Ok(UserText(Join(texts, "\n")));
      }
    }

    /** `get_messages(model)`. */
    method GetMessages(model: Model, r: Renderers) returns (result: Result<seq<Message>>)
      ensures result == Messages(model, r)
    {
      var messages := [model.systemMessage];
      if informations != [] {
        var m := GetInfoMsg(informations, model, r, "informations");
        if m.Err? {
          assert Messages(model, r) == Err(m.error);
          return Err(m.error);
        }
        messages := messages + [m.value];
      }
      assert messages == [model.systemMessage] + InfoBlock(informations, model, r, "informations").value;
      if inputInformations != [] {
        var m := GetInfoMsg(inputInformations, model, r, "input_informations");
        if m.Err? {
          assert Messages(model, r) == Err(m.error);
          return Err(m.error);
        }
        messages := messages + [m.value];
      }
      ghost var head := messages;
      assert head == [model.systemMessage]
        + InfoBlock(informations, model, r, "informations").value
        + InfoBlock(inputInformations, model, r, "input_informations").value;
      AppendIf(head, context != "", Labelled(model, "context", context));
      if context != "" {
        messages := messages + [Labelled(model, "context", context)];
      }
      ghost var fixed := if context != "" then [Labelled(model, "context", context)] else [];
      AppendIf(head + fixed, typeExplanations != [],
               Listed(model, "type_explanations", Map(r.explanation, typeExplanations)));
      if typeExplanations != [] {
        messages := messages + [Listed(model, "type_explanations", Map(r.explanation, typeExplanations))];
      }
      ghost var part := if typeExplanations != []
                        then [Listed(model, "type_explanations", Map(r.explanation, typeExplanations))] else [];
      Assoc(head, fixed, part);
      fixed := fixed + part;
      messages := messages + [Labelled(model, "return_hint", r.hint(returnHint))];
      messages := messages + [Labelled(model, "action", action)];
      part := [Labelled(model, "return_hint", r.hint(returnHint)), Labelled(model, "action", action)];
      AppendPair(head + fixed, part[0], part[1]);
      Assoc(head, fixed, part);
      fixed := fixed + part;
      AppendIf(head + fixed, tools != [], Listed(model, "tools", Map(r.tool, tools)));
      if tools != [] {
        messages := messages + [Listed(model, "tools", Map(r.tool, tools))];
      }
      part := if tools != [] then [Listed(model, "tools", Map(r.tool, tools))] else [];
      Assoc(head, fixed, part);
      fixed := fixed + part;
      result := Ok(messages);
    }
  }

  // ---- appending to a list of messages ----
  // Proof steps only: they regroup sequence concatenations so that `GetMessages` can match the
  // list it builds against `Messages` one step at a time; they model nothing of their own.

  lemma AppendIf(a: seq<Message>, c: bool, x: Message)
    ensures (if c then a + [x] else a) == a + (if c then [x] else [])
  {
  }

  lemma Assoc(a: seq<Message>, b: seq<Message>, c: seq<Message>)
    ensures (a + b) + c == a + (b + c)
  {
  }

  lemma AppendPair(a: seq<Message>, x: Message, y: Message)
    ensures (a + [x]) + [y] == a + [x, y]
  {
  }

  /** A sequence that increases step by step increases between any two positions. */
  lemma {:induction false} Increasing(xs: seq<int>, j: int, k: int)
    requires forall i :: 0 <= i < |xs| - 1 ==> xs[i] < xs[i + 1]
    requires 0 <= j < k < |xs|
    ensures xs[j] < xs[k]
  {
    if k > j + 1 {
      Increasing(xs, j, k - 1);
    }
  }

  /** `get_info_msg` always produces a user message. */
  lemma InfoMessageRole(inputs: seq<Information>, model: Model, r: Renderers, infoType: string)
    requires InfoMessage(inputs, model, r, infoType).Ok?
    ensures InfoMessage(inputs, model, r, infoType).value.role == User
  {
  }

  // =====================================================================================
  // the extraction and repair prompts
  // =====================================================================================

  class ExtractOutputPromptInfo {
    const returnHint: OutputHint
    const typeExplanations: seq<TypeExplanation>

    constructor(returnHint: OutputHint, typeExplanations: seq<TypeExplanation>)
      ensures this.returnHint == returnHint && this.typeExplanations == typeExplanations
    {
      this.returnHint := returnHint;
      this.typeExplanations := typeExplanations;
    }

    /** `get_messages(model, output)`: the reply to extract from, the expected output type, its
        type explanations when there are any, and the backend's extraction instruction. */
    method GetMessages(model: Model, r: Renderers, output: string) returns (messages: seq<Message>)
      ensures |messages| == if typeExplanations == [] then 3 else 4
      ensures messages[0] == Labelled(model, "extract_output_output", output)
      ensures messages[1] == Labelled(model, "extract_output_return_hint", r.hint(returnHint))
      ensures typeExplanations != [] ==>
        messages[2] == Listed(model, "extract_output_type_explanations", Map(r.explanation, typeExplanations))
      ensures messages[|messages| - 1] == UserText(model.extractInstruction)
      ensures forall i :: 0 <= i < |messages| ==> messages[i].role == User
    {
      messages := [];
      messages := messages + [Labelled(model, "extract_output_output", output)];
      messages := messages + [Labelled(model, "extract_output_return_hint", r.hint(returnHint))];
      if typeExplanations != [] {
        messages := messages
          + [Listed(model, "extract_output_type_explanations", Map(r.explanation, typeExplanations))];
      }
      messages := messages + [UserText(model.extractInstruction)];
    }
  }

  class OutputFixPromptInfo {
    const returnHint: OutputHint
    const typeExplanations: seq<TypeExplanation>

    constructor(returnHint: OutputHint, typeExplanations: seq<TypeExplanation>)
      ensures this.returnHint == returnHint && this.typeExplanations == typeExplanations
    {
      this.returnHint := returnHint;
      this.typeExplanations := typeExplanations;
    }

    /** `get_messages(model, output, error)`: the reply to repair, the expected output type, its
        type explanations when there are any, the error the reply caused, and the backend's
        repair instruction. */
    method GetMessages(model: Model, r: Renderers, output: string, error: string) returns (messages: seq<Message>)
      ensures |messages| == if typeExplanations == [] then 4 else 5
      ensures messages[0] == Labelled(model, "output_fix_output", output)
      ensures messages[1] == Labelled(model, "output_fix_return_hint", r.hint(returnHint))
      ensures typeExplanations != [] ==>
        messages[2] == Listed(model, "output_fix_type_explanations", Map(r.explanation, typeExplanations))
      ensures messages[|messages| - 2] == Labelled(model, "output_fix_error", error)
      ensures messages[|messages| - 1] == UserText(model.fixInstruction)
      ensures forall i :: 0 <= i < |messages| ==> messages[i].role == User
    {
      messages := [];
      messages := messages + [Labelled(model, "output_fix_output", output)];
      messages := messages + [Labelled(model, "output_fix_return_hint", r.hint(returnHint))];
      if typeExplanations != [] {
        messages := messages
          + [Listed(model, "output_fix_type_explanations", Map(r.explanation, typeExplanations))];
      }
      messages := messages + [Labelled(model, "output_fix_error", error)];
      messages := messages + [UserText(model.fixInstruction)];
    }
  }
}
