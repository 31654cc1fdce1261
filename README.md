# semantix prompt assembly and type rendering, in Dafny

semantix turns a Python function's signature, arguments and meaning annotations into a chat
prompt for a language model. This project models the part of semantix that works on values
alone and proves properties of it:

- **Prompt assembly** (`semantix/inference.py`, module `Inference`).
  `PromptInfo.get_messages` builds the ordered, role-tagged message list for the main call:
  system, informations, input informations, context, type explanations, return hint, action,
  tools. `PromptInfo.get_info_msg` renders one batch of `Information` items as a plain
  newline-joined string, or as a list of content parts led by a text label when some item is an
  image or a video. `ExtractOutputPromptInfo.get_messages` and `OutputFixPromptInfo.get_messages`
  build the short sequences for the extraction call and the repair call. The three classes keep
  the fields their constructors store, as `const` fields. `PromptInfo.get_messages` and
  `get_info_msg` are methods that build their lists step by step. Each is proved equal to a
  specification function, and that function's ordering, presence, length and role properties
  are proved as lemmas. The two shorter `get_messages` methods state their result directly,
  message by message: its length, and the role and content at each position.
- **Type and value rendering** (`semantix/utils.py`, module `Utils`).
  - `get_type` renders a type annotation.
  - `get_object_string` is the literal formatter for runtime values.
  - `extract_non_primary_type` tokenises a signature into identifiers and drops the ten
    primitive names.
  - `get_type_from_value` infers a signature from a value.

  Python's reflection is replaced by two closed datatypes, `TypeAnn` and `Value`. The `re`
  pattern is replaced by a scanner for maximal identifier runs.
- **A reader for the formatter's output** (module `LiteralParser`). It is the partner of
  `get_object_string`. The central lemma proves that reading back what the formatter wrote
  yields the value it was given.

Supporting modules: `Results` (the `Option` and `Result` types and the two Python exceptions the
model represents) and `Text` (`str.join`, decimal rendering of integers, identifier
characters).

The backend is a datatype `Model`. It holds the message-description function `desc`
(`get_message_desc`), the system message and the two instruction constants. The renderers from
`semantix.types` (`Information.get_content`, `str(Tool)`, `str(TypeExplanation)`,
`str(OutputHint)`) are function-valued fields of a datatype `Renderers`. Both are parameters.
They are total Dafny functions, so the model takes them to never raise and to give equal results
for equal arguments; nothing else is assumed about what they return.

## Model

| member | source | states |
|---|---|---|
| Inference.PromptInfo.constructor | semantix/inference.py:12-28 | the prompt stores action, context, both information lists, tools, return hint and type explanations unchanged |
| Inference.PromptInfo.GetMessages | semantix/inference.py:30-78 | the list built by successive appends equals `Messages`: the system message, the optional blocks in source order, then return hint, action and optional tools; an error raised while rendering an information block is returned instead |
| Inference.PromptInfo.EmittedSlotsInOrder | semantix/inference.py:30-78 | exactly 3 + (number of non-empty optional parts) slots are emitted; the first is the system message; the order is strictly system, informations, input_informations, context, type_explanations, return_hint, action, tools; a slot is emitted iff its list or string is non-empty |
| Inference.PromptInfo.MessagesFollowSlots | semantix/inference.py:30-78 | when assembly succeeds, the k-th message is the message of the k-th emitted slot: context, return hint and action read `desc(key) + "\n" + text`, type explanations and tools read `desc(key)` and each rendered item joined by "\n", information blocks are `get_info_msg` of their list |
| Inference.PromptInfo.MessagesShape | semantix/inference.py:31-77 | there are 3 + (number of non-empty optional parts) messages; the first is `system_message`; the return-hint message `desc("return_hint") + "\n" + hint` is immediately followed by the action message `desc("action") + "\n" + action`, and only the tools message (`desc("tools")` and each tool joined by "\n") comes after them; every later message has role user |
| Inference.PromptInfo.MessagesOk | semantix/inference.py:32-37 | assembly succeeds iff each non-empty information list renders without error |
| Inference.PromptInfo.MessagesErr | semantix/inference.py:32-37 | on failure, the error is that of `informations` when that block fails, else that of `input_informations`, and it is a TypeError |
| Inference.PromptInfo.InfoBlockMatches | semantix/inference.py:32-37 | an information block is empty for an empty list and otherwise the single message `get_info_msg` produces |
| Inference.PromptInfo.FixedMatches | semantix/inference.py:38-77 | the context, type-explanation, return-hint, action and tools messages follow their slots one for one |
| Inference.PromptInfo.GetInfoMsg | semantix/inference.py:80-104 | the loop's result equals `InfoMessage`: label entry, then each non-list item content appended once in order; a list-valued content is doubled in place and adds nothing |
| Inference.AnyMedia | semantix/inference.py:83 | media mode holds iff some item has type "Video" or "Image" |
| Inference.AppendedSingles | semantix/inference.py:94-100 | the appended entries are exactly the non-list contents, one per such item, in strictly increasing input order; list-valued contents contribute nothing, so the part count is 1 + the number of non-list contents |
| Inference.InfoMessageMedia | semantix/inference.py:84-103 | with media, the content is the part list `[{"type": "text", "text": desc(info_type)}]` followed by the appended entries, role user |
| Inference.InfoMessageText | semantix/inference.py:101-103 | without media, the message succeeds iff every appended content is a string; it is then `desc(info_type)` and the contents joined by "\n" |
| Inference.Texts | semantix/inference.py:103 | `"\n".join` succeeds iff every entry is a string, and keeps them in order; any failure is a TypeError |
| Inference.AssembleText | semantix/inference.py:101-103 | the text-mode message succeeds iff every entry is a string, and is the label followed by them joined by "\n" |
| Inference.InfoMessageRole | semantix/inference.py:101-102 | a rendered information message always has role user |
| Inference.ListContentDropped | semantix/inference.py:95-100 | as written, an image whose content is the one-part list `[e]` yields only the label part; the intended flattening yields `[label, e]` |
| Inference.FlattenedKeepsAllParts | semantix/inference.py:94-100 | the corrected loop (`contents.extend(content)`) appends every part of every item content, in order |
| Inference.IntendedOnePartPerItem | semantix/inference.py:94-100 | with the corrected loop, items that render to one part each give exactly one part per item, in input order |
| Inference.ExtractOutputPromptInfo.constructor | semantix/inference.py:108-112 | return hint and type explanations are stored unchanged |
| Inference.ExtractOutputPromptInfo.GetMessages | semantix/inference.py:114-146 | 3 messages, or 4 with type explanations: output first, return hint second, type explanations third when present, `EXTRACT_OUTPUT_INSTRUCTION` verbatim last; all role user |
| Inference.OutputFixPromptInfo.constructor | semantix/inference.py:150-154 | return hint and type explanations are stored unchanged |
| Inference.OutputFixPromptInfo.GetMessages | semantix/inference.py:156-194 | 4 messages, or 5 with type explanations: output first, return hint second, type explanations third when present, `desc("output_fix_error") + "\n" + error` second to last, `OUTPUT_FIX_INSTRUCTION` last; all role user |
| Utils.GetType | semantix/utils.py:9-19 | the only exception `get_type` can raise on a representable annotation is the attribute error on `__args` |
| Utils.AllOk | semantix/utils.py:16 | rendering the tuple arguments succeeds iff every argument renders, and then gives their texts in order; on failure the error is that of the first argument that fails |
| Utils.GetTypeFailsIffSet | semantix/utils.py:9-19 | among the annotations the model represents (well-formed `list`, `dict`, `tuple`, `set`, classes and other typing objects), `get_type` raises exactly on those that contain a `set` at some depth |
| Utils.GetTypeComposes | semantix/utils.py:11-19 | on set-free annotations `list[T]` renders as `"list[" + get_type(T) + "]"`, `dict[K, V]` as `"dict[" + get_type(K) + ", " + get_type(V) + "]"`, and `tuple[...]` as every argument rendered and joined by ", "; a plain class renders as its name and any other annotation as its `str()` |
| Utils.SetAnnotationFails | semantix/utils.py:17-18 | as written, `set[int]` raises an attribute error on `__args`; the corrected rendering gives "set[int]" |
| Utils.GetTypeIntendedAgrees | semantix/utils.py:9-19 | the corrected `get_type` agrees with the code exactly on the annotations that contain no `set` |
| Utils.RunEnd | semantix/utils.py:56 | the scanner stops at the end of a maximal run of identifier characters |
| Utils.Tokens | semantix/utils.py:56-57 | every token found is an identifier `[A-Za-z_][A-Za-z0-9_]*` |
| Utils.TokensAppend | semantix/utils.py:56-57 | when no identifier spans the seam, the tokens of a concatenation are the tokens of its halves, in order |
| Utils.TokensOfJoinedIdentifiers | semantix/utils.py:56-57 | identifiers joined by punctuation are found again, in order, duplicates kept |
| Utils.NonPrimary | semantix/utils.py:58-70 | every kept name comes from the input and is not one of the ten primitive names; no primitive name is kept |
| Utils.NonPrimaryCounts | semantix/utils.py:70 | every name outside the ten primitive names is kept exactly as many times as it occurs in the input |
| Utils.NonPrimaryAppend | semantix/utils.py:70 | the filter keeps order: filtering a concatenation concatenates the filtered halves |
| Utils.ExtractNonPrimaryType | semantix/utils.py:52-71 | the empty string gives `[]`; every element is an identifier outside {str, int, float, bool, list, dict, tuple, set, Any, None} |
| Utils.ExtractOfJoinedIdentifiers | semantix/utils.py:52-71 | for identifiers joined by a punctuation separator such as ", ", the result is those identifiers in order with exactly the primitive names dropped, each other name kept as often as it occurs |
| Utils.ExtractOfGetType | semantix/utils.py:52-71 | extracting from a rendered set-free annotation gives the class names the annotation references, in order, primitives dropped |
| Utils.GetObjectString | semantix/utils.py:22-49 | a str instance renders between double quotes; a list, tuple and dict between `[` `]`, `(` `)` and `{` `}`; an object with `__dict__` starts with its class name; only free text (a float, a number-derived enum member, the `str()` fallback) can render empty. Its partner is the reader in `LiteralParser.ParseRendered` |
| Utils.FormatterEmpty | semantix/utils.py:24-40 | a string is wrapped in double quotes without escaping; empty list, tuple and dict render as `[]`, `()` and `{}` |
| Utils.FormatterTupleSingleton | semantix/utils.py:30-31 | a one-element tuple renders as `(x)`, with no trailing comma |
| Utils.FormatterDictSingleton | semantix/utils.py:32-40 | a one-entry dict renders as `{k: v}` |
| Utils.EnumDispatchOrder | semantix/utils.py:24-42 | first match wins: a str-mixin enum member renders as a quoted string, an int-mixin member as a number, and only a plain member as `ClassName.MemberName` |
| Utils.FirstNotNone | semantix/utils.py:77-80 | `next(...)` gives nothing iff every value is None, and otherwise the first value that is not None |
| Utils.GetTypeFromValue | semantix/utils.py:74-92 | the signature inferred for a non-empty list is what `get_type` renders for `list[C]`, C the class of element 0; for a dict it is what `get_type` renders for `dict[str, C]` with a non-empty C; any other value gives its type name |
| Utils.GetTypeFromDict | semantix/utils.py:76-84 | a dict gives `"dict[str, Any]"` when every value is None, and otherwise `"dict[str, " + class name of the first non-None value + "]"` |
| Utils.GetTypeFromList | semantix/utils.py:85-90 | an empty list gives `"list"`; otherwise `"list[" + class name of element 0 + "]"`, even when element 0 is None |
| Utils.InferredListSignature | semantix/utils.py:85-88 | for a non-empty list of one class, the inferred signature is what `get_type` renders for `list[C]` |
| Utils.InferredDictSignature | semantix/utils.py:76-82 | for a non-empty dict whose values share one class, the inferred signature is what `get_type` renders for `dict[str, C]` |
| Utils.InferredListExplains | semantix/utils.py:85-88 | extracting from the signature inferred for a list of a non-primitive class gives exactly that class |
| LiteralParser.ParseRendered | semantix/utils.py:22-49 | reading back the literal the formatter wrote yields the original value and leaves what follows it untouched |
| LiteralParser.StrRoundTrip | semantix/utils.py:24-25 | a quoted string with no quote inside reads back as that string |
| LiteralParser.IntRoundTrip | semantix/utils.py:26-27 | `str()` of an integer, sign included, reads back as that integer |
| LiteralParser.KeywordRoundTrip | semantix/utils.py:26-27 | `True`, `False` and `None` read back as themselves |
| LiteralParser.EnumRoundTrip | semantix/utils.py:41-42 | `ClassName.MemberName` reads back as that enum member |
| LiteralParser.ListRoundTrip | semantix/utils.py:28-29 | a list literal reads back as the list, element by element |
| LiteralParser.TupleRoundTrip | semantix/utils.py:30-31 | a tuple literal reads back as the tuple, element by element |
| LiteralParser.DictRoundTrip | semantix/utils.py:32-40 | a dict literal reads back as the same entries in the same order |
| LiteralParser.ObjRoundTrip | semantix/utils.py:43-47 | `ClassName(k1=v1, ...)` reads back as the object with the same fields in order |
| LiteralParser.ElemsRoundTrip | semantix/utils.py:29 | elements joined by ", " and closed by a bracket read back element by element |
| LiteralParser.EntryElemsRoundTrip | semantix/utils.py:35-38 | `k: v` entries joined by ", " read back entry by entry |
| LiteralParser.FieldElemsRoundTrip | semantix/utils.py:44-46 | `key=value` fields joined by ", " read back field by field |
| Text.NatToStringValue | semantix/utils.py:26-27 | the decimal digits written for a natural number denote that number |

## Left out

- `InferenceEngine.run` is not part of this model. It reads the caller's frame, calls the model
  backend over the network and hands the output to the backend's resolver. The backend module
  `semantix.llms.base` is not part of this model.
- `get_meaning` is not part of this model. It works by stack-frame introspection, reading files,
  parsing with `ast` and importing modules dynamically.
- Floating-point numbers: a `Float` value carries the text `str()` gives it, and nothing is
  proved about that text. The `str(obj)` fallback of `get_object_string` and `str(_type)` in
  `get_type` are likewise opaque text in the `Opaque` and `Other` cases.
- The bodies of `Information.get_content`, `Tool.__str__`, `TypeExplanation.__str__` and
  `OutputHint.__str__` live in `semantix.types`, which is not part of this model. They are
  uninterpreted function parameters.
- The backend's phrasing (`get_message_desc`, `system_message`, `EXTRACT_OUTPUT_INSTRUCTION`,
  `OUTPUT_FIX_INSTRUCTION`) is an uninterpreted parameter.
- The backend and the renderers are taken as total: `get_message_desc`, `get_content`,
  `str(Tool)`, `str(TypeExplanation)` and `str(OutputHint)` never raise in the model. The only
  assembly error modelled is the TypeError from `"\n".join` in `get_info_msg`, and the "iff" of
  `Inference.PromptInfo.MessagesOk` rests on that totality.
- Utils.GetObjectString and Utils.GetType: values and annotations are finite trees. A list that
  contains itself, an object whose field points back to it, and nesting deeper than Python's
  recursion limit cannot be written down. So the RecursionError that `get_object_string`
  (`semantix/utils.py:28-47`) and `get_type` (`semantix/utils.py:9-19`) raise on them is not
  modelled. A shared reference is represented as a copy, so object identity is not modelled
  either.
- Text.IntToString renders every integer. Since Python 3.11, `str()` of an int with more than
  4300 digits raises ValueError by default, so `get_object_string` (`semantix/utils.py:27`)
  fails there, and the model does not.
- Python's `re` engine and `isinstance` / `__origin__` reflection are replaced by a direct
  scanner and closed datatypes. The pattern's `[`, `,\s*` and `|` prefix alternative captures
  the same identifier that the bare alternative would, so the scanner returns the same list.
- Inference.PromptInfo.GetInfoMsg: the model treats the list returned by `get_content` as a
  local value. It doubles that list in place, as the code does. Whether the list is shared with
  the `Information` object, so that the doubling would be visible through it, is not modelled.
- Malformed and bare generic aliases are not representable in `TypeAnn`: a one-argument
  `dict[K]` (an IndexError at `semantix/utils.py:14`) and the bare `typing.List`, `typing.Dict`
  and `typing.Tuple`, whose missing `__args__` raise an AttributeError at lines 12, 14 and 16.
  `GetType` and `GetTypeFailsIffSet` speak only of the annotations `TypeAnn` can express.
- A `dict` is a sequence of entries in insertion order. Key hashing and the uniqueness of keys
  are not modelled.
- LiteralParser.ParseRendered: the round trip is stated only for values whose literal is
  unambiguous. That excludes strings that contain `"` (the formatter does not escape them),
  floats, opaque `str()` text, and enum members with a str or int mixin, which render as a
  plain string or number.
- A one-element tuple renders as `(x)`, with no trailing comma. Python itself would read that
  text back as `x`. The reader here reads it as a one-element tuple, which is the formatter's
  own convention.
- Utils.InferredDictSignature: requires a non-empty class name. `get_type_from_value` tests the
  name for truthiness, so an empty name gives `"dict[str, Any]"`.
- Where the behaviour of `get_info_msg` could be read as "one part per item", the model follows
  the code: list-valued item contents are dropped (see Findings).

## Findings

| source | as written | input that shows it | evidently intended | confidence | as-written member | corrected member |
|---|---|---|---|---|---|---|
| semantix/inference.py:97 | `content.extend(content)` extends the item's own list with itself, so a list-valued item content never reaches `contents` | one `Image` information whose `get_content(True)` returns the one-part list `[e]`: the message content is only the label part | `contents.extend(content)`, so every part of a list-valued content is appended after the label | high, not executed | Inference.ListContentDropped | Inference.FlattenedKeepsAllParts |
| semantix/utils.py:18 | `_type.__args[0]` names an attribute that does not exist, so every `set[...]` annotation raises `AttributeError` | `set[int]` | `_type.__args__[0]`, rendering `"set[int]"` | high, not executed | Utils.SetAnnotationFails | Utils.GetTypeIntendedAgrees |

The prompt methods (`GetInfoMsg`, `GetMessages`) keep the code as written. The corrected
definitions (`Inference.InfoMessageIntended`, `Utils.GetTypeIntended`) sit beside them, and
their intended properties are proved.
