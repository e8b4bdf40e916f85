/**
 * The chat widget of components/ChatInterface.tsx: the message list, the
 * input box, the typing indicator and the WhatsApp hand-off flag, and the
 * operations that change them (typing, sending with a streamed reply, and
 * the reset button).
 */
module ChatWidget {
  import opened Wrappers
  import opened Catalog
  import opened PropToken
  import opened TextCleaning
  import opened TokenLookup

  datatype Role = User | Assistant

  /** A message of the conversation (the timestamp is not modelled). */
  datatype ChatMessage = ChatMessage(id: string, role: Role, text: string, property: Option<Property>)

  /** One entry of the conversation history sent to the language model. */
  datatype HistoryEntry = HistoryEntry(role: string, parts: seq<string>)

  const WelcomeText: string :=
    "Welcome to Abisam Properties. I'm your elite AI sales partner for the Abeokuta market. Are you looking to Buy, Rent, or Sell today?"

  const ErrorText: string :=
    "I'm experiencing a high volume of requests. Please use the WhatsApp button to connect with our team directly."

  /** The greeting put in place when the widget is mounted. */
  function Welcome(): ChatMessage {
    ChatMessage("init", Assistant, WelcomeText, None)
  }

  // ---------------------------------------------------------------------------
  // Identifiers: `Date.now().toString()`

  function DigitChar(d: nat): (c: char)
    requires d < 10
    ensures IsAsciiDigit(c)
  {
    "0123456789"[d]
  }

  /** The decimal numeral of `n`, as `Number.prototype.toString` writes it. */
  function DecimalString(n: nat): (s: string)
    ensures |s| > 0 && AllDigits(s)
    ensures n < 10 <==> |s| == 1
  {
    if n < 10 then [DigitChar(n)] else DecimalString(n / 10) + [DigitChar(n % 10)]
  }

  /** A numeral is never the id of the greeting, so streaming never rewrites the greeting. */
  lemma NumeralIsNotInit(n: nat)
    ensures DecimalString(n) != "init"
  {
    var s := DecimalString(n);
    assert IsAsciiDigit(s[0]);
  }

  // ---------------------------------------------------------------------------
  // History sent to the model

  /** The history role: user messages stay "user", every other message becomes "model". */
  function HistoryRole(r: Role): string {
    if r == User then "user" else "model"
  }

  /** `messages.map(m => ({ role: ..., parts: [{ text: m.text }] }))`. */
  function ToHistory(msgs: seq<ChatMessage>): (h: seq<HistoryEntry>)
    ensures |h| == |msgs|
    ensures forall i :: 0 <= i < |msgs| ==> h[i] == HistoryEntry(HistoryRole(msgs[i].role), [msgs[i].text])
  {
    if msgs == [] then [] else [HistoryEntry(HistoryRole(msgs[0].role), [msgs[0].text])] + ToHistory(msgs[1..])
  }

  /** A history entry is a "user" entry exactly when its message was the user's, and it carries the message text. */
  lemma HistoryMarksUserTurns(msgs: seq<ChatMessage>, i: nat)
    requires i < |msgs|
    ensures ToHistory(msgs)[i].role == "user" <==> msgs[i].role == User
    ensures ToHistory(msgs)[i].role == "model" <==> msgs[i].role == Assistant
    ensures ToHistory(msgs)[i].parts == [msgs[i].text]
  {
    assert "user"[0] != "model"[0];
  }

  /** The history of a longer conversation extends the history of the shorter one. */
  lemma {:induction false} HistoryAppend(a: seq<ChatMessage>, b: seq<ChatMessage>)
    ensures ToHistory(a + b) == ToHistory(a) + ToHistory(b)
  {
    if a == [] {
      assert a + b == b;
    } else {
      assert (a + b)[1..] == a[1..] + b;
      HistoryAppend(a[1..], b);
    }
  }

  // ---------------------------------------------------------------------------
  // The streamed text

  /** `fullText` after the given chunks: each chunk is appended in turn. It is empty exactly when every chunk is. */
  function Concat(chunks: seq<string>): (r: string)
    ensures r == "" <==> forall k :: 0 <= k < |chunks| ==> chunks[k] == ""
  {
    if chunks == [] then ""
    else
      var n := |chunks| - 1;
      var front := chunks[..n];
      assert forall k :: 0 <= k < n ==> front[k] == chunks[k];
      Concat(front) + chunks[n]
  }

  lemma ConcatStep(chunks: seq<string>, i: nat)
    requires i < |chunks|
    ensures Concat(chunks[..i + 1]) == Concat(chunks[..i]) + chunks[i]
  {
    assert chunks[..i + 1][..i] == chunks[..i];
  }

  /** The text after `i` chunks is a prefix of the text after `j >= i` chunks: streaming only appends. */
  lemma {:induction false} ConcatPrefix(chunks: seq<string>, i: nat, j: nat)
    requires i <= j <= |chunks|
    ensures Concat(chunks[..i]) <= Concat(chunks[..j])
    decreases j - i
  {
    if i < j {
      ConcatPrefix(chunks, i, j - 1);
      ConcatStep(chunks, j - 1);
    }
  }

  /** Number of UTF-16 code units of a character (what `length` counts). */
  function CodeUnits(c: char): nat {
    if c as int >= 0x1_0000 then 2 else 1
  }

  /** `s.length` in JavaScript: the number of UTF-16 code units of `s`. */
  function Utf16Length(s: string): (n: nat)
    ensures |s| <= n <= 2 * |s|
  {
    if s == [] then 0 else CodeUnits(s[0]) + Utf16Length(s[1..])
  }

  /** Length adds up over concatenation, so it never shrinks as chunks arrive. */
  lemma {:induction false} Utf16LengthAppend(a: string, b: string)
    ensures Utf16Length(a + b) == Utf16Length(a) + Utf16Length(b)
  {
    if a == [] {
      assert a + b == b;
    } else {
      assert (a + b)[0] == a[0] && (a + b)[1..] == a[1..] + b;
      Utf16LengthAppend(a[1..], b);
    }
  }

  function LowerChar(c: char): char {
    if 'A' <= c <= 'Z' then (c as int + 32) as char else c
  }

  /**
   * `toLowerCase` on ASCII letters. The only letters of other scripts that
   * lower-case to ASCII letters give 'i' and 'k', which "whatsapp" does not
   * hold, so it decides the WhatsApp check exactly as full lower-casing does.
   */
  function AsciiLower(s: string): (r: string)
    ensures |r| == |s|
    ensures forall i :: 0 <= i < |s| ==> r[i] == LowerChar(s[i])
  {
    if s == [] then [] else [LowerChar(s[0])] + AsciiLower(s[1..])
  }

  /** `sub` stands at position `k` of `s`. */
  predicate OccursAt(s: string, sub: string, k: nat) {
    k + |sub| <= |s| && s[k..k + |sub|] == sub
  }

  /**
   * `s.includes(sub)`: a scan for `sub` from each position in turn. It
   * only succeeds when `sub` fits in `s`; `ContainsAt` and `ContainsOccurs`
   * show it holds exactly when `sub` occurs at some position.
   */
  predicate Contains(s: string, sub: string)
    ensures Contains(s, sub) ==> |sub| <= |s|
    decreases |s|
  {
    sub <= s || (s != [] && Contains(s[1..], sub))
  }

  /** An occurrence of `sub` at position `k` makes `Contains` hold (the converse is `ContainsOccurs`). */
  lemma {:induction false} ContainsAt(s: string, sub: string, k: nat)
    requires k + |sub| <= |s|
    ensures s[k..k + |sub|] == sub ==> Contains(s, sub)
    decreases k
  {
    if k > 0 {
      assert s[1..][k - 1..k - 1 + |sub|] == s[k..k + |sub|];
      ContainsAt(s[1..], sub, k - 1);
    }
  }

  /** When `Contains` holds, `sub` occurs at some position of `s`. */
  lemma {:induction false} ContainsOccurs(s: string, sub: string)
    requires Contains(s, sub)
    ensures exists k: nat :: OccursAt(s, sub, k)
    decreases |s|
  {
    if sub <= s {
      assert s[0..|sub|] == sub;
      assert OccursAt(s, sub, 0);
    } else {
      ContainsOccurs(s[1..], sub);
      var k: nat :| OccursAt(s[1..], sub, k);
      assert s[k + 1..k + 1 + |sub|] == s[1..][k..k + |sub|];
      assert OccursAt(s, sub, k + 1);
    }
  }

  /** `Contains` is exactly the existence of an occurrence. */
  lemma ContainsIff(s: string, sub: string)
    ensures Contains(s, sub) <==> exists k: nat :: OccursAt(s, sub, k)
  {
    if Contains(s, sub) {
      ContainsOccurs(s, sub);
    } else if exists k: nat :: OccursAt(s, sub, k) {
      var k: nat :| OccursAt(s, sub, k);
      ContainsAt(s, sub, k);
    }
  }

  /** Text once containing "whatsapp" keeps containing it as chunks are appended. */
  lemma {:induction false} ContainsAppend(a: string, b: string, sub: string)
    requires Contains(a, sub)
    ensures Contains(a + b, sub)
    decreases |a|
  {
    if sub <= a {
      assert (a + b)[..|sub|] == a[..|sub|];
    } else {
      assert (a + b)[1..] == a[1..] + b;
      ContainsAppend(a[1..], b, sub);
    }
  }

  // ---------------------------------------------------------------------------
  // One streaming update

  /** `foundProp || m.property`: a listing found now wins, otherwise the message keeps the one it had. */
  function Attach(found: Option<Property>, current: Option<Property>): (r: Option<Property>)
    ensures found.Some? ==> r == found
    ensures found.None? ==> r == current
    ensures r.Some? <==> found.Some? || current.Some?
  {
    if found.Some? then found else current
  }

  /**
   * `prev.map(...)` after a chunk: every message whose id is `id` shows
   * `shown` and takes the listing `found` if there is one; every other
   * message stays.
   */
  function StreamUpdate(msgs: seq<ChatMessage>, id: string, shown: string, found: Option<Property>): (r: seq<ChatMessage>)
    ensures |r| == |msgs|
  {
    if msgs == [] then []
    else
      var m := msgs[0];
      var m' := if m.id == id then ChatMessage(id, m.role, shown, Attach(found, m.property)) else m;
      [m'] + StreamUpdate(msgs[1..], id, shown, found)
  }

  /** Message by message: a message with id `id` is rewritten, any other is left as it was. */
  lemma {:induction false} StreamUpdateAt(msgs: seq<ChatMessage>, id: string, shown: string, found: Option<Property>, i: nat)
    requires i < |msgs|
    ensures msgs[i].id != id ==> StreamUpdate(msgs, id, shown, found)[i] == msgs[i]
    ensures msgs[i].id == id ==>
      StreamUpdate(msgs, id, shown, found)[i] == ChatMessage(id, msgs[i].role, shown, Attach(found, msgs[i].property))
  {
    if i > 0 {
      StreamUpdateAt(msgs[1..], id, shown, found, i - 1);
    }
  }

  /** A second update overwrites the first, as long as it keeps any listing the first attached. */
  lemma {:induction false} StreamUpdateOverwrites(msgs: seq<ChatMessage>, id: string, shown1: string, found1: Option<Property>,
                                                 shown2: string, found2: Option<Property>)
    requires found1.Some? ==> found2 == found1
    ensures StreamUpdate(StreamUpdate(msgs, id, shown1, found1), id, shown2, found2) == StreamUpdate(msgs, id, shown2, found2)
  {
    if msgs != [] {
      StreamUpdateOverwrites(msgs[1..], id, shown1, found1, shown2, found2);
    }
  }

  /**
   * The messages after each chunk in turn has been streamed into `base`.
   * However many chunks arrive, the list keeps its length and every message
   * with another id is left as it was.
   */
  function Streamed(base: seq<ChatMessage>, id: string, catalog: seq<Property>, chunks: seq<string>): (r: seq<ChatMessage>)
    ensures |r| == |base|
    ensures forall i :: 0 <= i < |base| && base[i].id != id ==> r[i] == base[i]
  {
    if chunks == [] then base
    else
      var full := Concat(chunks);
      var prev := Streamed(base, id, catalog, chunks[..|chunks| - 1]);
      var shown := CleanText(full);
      var found := FindPropertyFromToken(catalog, full);
      var r := StreamUpdate(prev, id, shown, found);
      assert forall i :: 0 <= i < |base| && base[i].id != id ==> r[i] == base[i] by {
        forall i | 0 <= i < |base| && base[i].id != id
          ensures r[i] == base[i]
        {
          StreamUpdateAt(prev, id, shown, found, i);
        }
      }
      r
  }

  lemma StreamedStep(base: seq<ChatMessage>, id: string, catalog: seq<Property>, chunks: seq<string>, i: nat)
    requires i < |chunks|
    ensures var full := Concat(chunks[..i]) + chunks[i];
      Streamed(base, id, catalog, chunks[..i + 1])
      == StreamUpdate(Streamed(base, id, catalog, chunks[..i]), id, CleanText(full), FindPropertyFromToken(catalog, full))
  {
    ConcatStep(chunks, i);
    assert chunks[..i + 1][..i] == chunks[..i];
  }

  /**
   * Only the last update counts: streaming the chunks one by one leaves the
   * messages as one update with the whole text would, because a listing
   * found in a prefix is still the one found in the whole text.
   */
  lemma {:induction false} StreamedIsLastUpdate(base: seq<ChatMessage>, id: string, catalog: seq<Property>, chunks: seq<string>)
    requires chunks != []
    ensures var full := Concat(chunks);
      Streamed(base, id, catalog, chunks) == StreamUpdate(base, id, CleanText(full), FindPropertyFromToken(catalog, full))
    decreases |chunks|
  {
    var n := |chunks| - 1;
    var prefix := chunks[..n];
    if n > 0 {
      StreamedIsLastUpdate(base, id, catalog, prefix);
      ConcatStep(chunks, n);
      assert chunks[..n + 1] == chunks;
      var a := Concat(prefix);
      var found := FindPropertyFromToken(catalog, a);
      if found.Some? {
        FoundPropertyIsStable(catalog, a, chunks[n]);
      }
      StreamUpdateOverwrites(base, id, CleanText(a), found,
        CleanText(Concat(chunks)), FindPropertyFromToken(catalog, Concat(chunks)));
    }
  }

  /**
   * Once a listing is attached to a reply that had none, later chunks keep
   * that same listing: the first token of the text so far stays the first
   * token of every longer text.
   */
  lemma StreamedSticky(base: seq<ChatMessage>, id: string, catalog: seq<Property>, chunks: seq<string>,
                       i: nat, j: nat, k: nat)
    requires 0 < i <= j <= |chunks| && k < |base|
    requires base[k].id == id && base[k].property == None
    requires Streamed(base, id, catalog, chunks[..i])[k].property.Some?
    ensures Streamed(base, id, catalog, chunks[..j])[k].property == Streamed(base, id, catalog, chunks[..i])[k].property
  {
    hide CleanText, FindPropertyFromToken, Streamed, StreamUpdate, Concat;
    var a, b := Concat(chunks[..i]), Concat(chunks[..j]);
    assert chunks[..i] != [] && chunks[..j] != [];
    StreamedIsLastUpdate(base, id, catalog, chunks[..i]);
    StreamedIsLastUpdate(base, id, catalog, chunks[..j]);
    StreamUpdateAt(base, id, CleanText(a), FindPropertyFromToken(catalog, a), k);
    StreamUpdateAt(base, id, CleanText(b), FindPropertyFromToken(catalog, b), k);
    ConcatPrefix(chunks, i, j);
    assert b == a + b[|a|..];
    FoundPropertyIsStable(catalog, a, b[|a|..]);
  }

  /** An update rewrites an empty reply slot that is the only message with its id, and nothing before it. */
  lemma {:induction false} UpdateSlot(before: seq<ChatMessage>, id: string, shown: string, found: Option<Property>)
    requires forall i :: 0 <= i < |before| ==> before[i].id != id
    ensures StreamUpdate(before + [ChatMessage(id, Assistant, "", None)], id, shown, found)
      == before + [ChatMessage(id, Assistant, shown, found)]
  {
    var slot := ChatMessage(id, Assistant, "", None);
    if before != [] {
      assert (before + [slot])[1..] == before[1..] + [slot];
      UpdateSlot(before[1..], id, shown, found);
    }
  }

  /**
   * When the reply slot is the only message with its id, streaming rewrites
   * only that slot: it shows the cleaned full text and the listing of the
   * first token of the full text, if any; nothing before it changes.
   */
  lemma StreamedReply(before: seq<ChatMessage>, id: string, catalog: seq<Property>, chunks: seq<string>)
    requires chunks != []
    requires forall i :: 0 <= i < |before| ==> before[i].id != id
    ensures var full := Concat(chunks);
      Streamed(before + [ChatMessage(id, Assistant, "", None)], id, catalog, chunks)
      == before + [ChatMessage(id, Assistant, CleanText(full), FindPropertyFromToken(catalog, full))]
  {
    var full := Concat(chunks);
    StreamedIsLastUpdate(before + [ChatMessage(id, Assistant, "", None)], id, catalog, chunks);
    UpdateSlot(before, id, CleanText(full), FindPropertyFromToken(catalog, full));
  }

  /** Before the first chunk: no text, nothing shown yet. */
  lemma NothingStreamed(base: seq<ChatMessage>, id: string, catalog: seq<Property>, chunks: seq<string>)
    ensures Concat(chunks[..0]) == "" && Utf16Length("") == 0
    ensures Streamed(base, id, catalog, chunks[..0]) == base
  {
    assert chunks[..0] == [];
  }

  /** An update leaves a first message with another id alone. */
  lemma StreamUpdateKeepsHead(msgs: seq<ChatMessage>, id: string, shown: string, found: Option<Property>)
    ensures |msgs| >= 1 && msgs[0].id != id ==> StreamUpdate(msgs, id, shown, found)[0] == msgs[0]
  {
  }

  // ---------------------------------------------------------------------------
  // The widget

  /** `!input.trim()`: holds exactly when the input is nothing but white space. */
  predicate IsBlank(input: string)
    ensures IsBlank(input) <==> forall i :: 0 <= i < |input| ==> IsJsWhitespace(input[i])
  {
    TrimEmptyIffBlank(input);
    Trim(input) == []
  }

  /** `fullText.toLowerCase().includes('whatsapp')`: holds exactly when "whatsapp" stands somewhere in the lower-cased text. */
  predicate MentionsWhatsApp(fullText: string)
    ensures MentionsWhatsApp(fullText) <==> exists k: nat :: OccursAt(AsciiLower(fullText), "whatsapp", k)
  {
    ContainsIff(AsciiLower(fullText), "whatsapp");
    Contains(AsciiLower(fullText), "whatsapp")
  }

  class Widget {
    var messages: seq<ChatMessage>
    var input: string
    var isTyping: bool
    var showHandoff: bool
    /** The listings the reply tokens refer to. */
    const catalog: seq<Property>
    /** The greeting put in place at mount time. */
    const greeting: ChatMessage

    /** The greeting, whose id is "init", is always the first message. */
    ghost predicate Valid()
      reads this
    {
      |messages| >= 1 && messages[0] == greeting && greeting.id == "init"
    }

    /** The widget once mounted: the greeting alone, empty input, no indicator, no hand-off. */
    constructor ()
      ensures Valid()
      ensures greeting == Welcome() && messages == [greeting]
      ensures input == "" && !isTyping && !showHandoff
      ensures catalog == MockProperties
    {
      greeting := Welcome();
      messages := [greeting];
      input := "";
      isTyping := false;
      showHandoff := false;
      catalog := MockProperties;
    }

    /** The input box's `onChange`. */
    method SetInput(text: string)
      requires Valid()
      modifies this
      ensures Valid()
      ensures input == text
      ensures messages == old(messages) && isTyping == old(isTyping) && showHandoff == old(showHandoff)
    {
      input := text;
    }

    /**
     * `handleSend`. The clock readings become `userTime`, `assistantTime`
     * and `errorTime`; the stream becomes `chunks`, the chunks it delivers,
     * followed by an error when `fails` holds. A blank input, or any call
     * while the typing indicator is on, makes it do nothing and yields
     * `None`; otherwise it yields the history handed to the model.
     */
    method Send(userTime: nat, assistantTime: nat, errorTime: nat, chunks: seq<string>, fails: bool)
      returns (history: Option<seq<HistoryEntry>>)
      requires Valid()
      modifies this
      ensures Valid()
      ensures IsBlank(old(input)) || old(isTyping) ==>
        history == None && messages == old(messages) && input == old(input) &&
        isTyping == old(isTyping) && showHandoff == old(showHandoff)
      ensures !IsBlank(old(input)) && !old(isTyping) ==>
        var userMsg := ChatMessage(DecimalString(userTime), User, old(input), None);
        var aid := DecimalString(assistantTime + 1);
        var base := old(messages) + [userMsg, ChatMessage(aid, Assistant, "", None)];
        var full := Concat(chunks);
        history == Some(ToHistory(old(messages) + [userMsg])) &&
        input == "" &&
        messages == Streamed(base, aid, catalog, chunks) +
          (if fails then [ChatMessage("error-" + DecimalString(errorTime), Assistant, ErrorText, None)] else []) &&
        isTyping == (chunks == [] && !fails) &&
        showHandoff == (old(showHandoff) || fails || Utf16Length(full) > 40 ||
                        MentionsWhatsApp(full) || |old(messages)| > 2)
    {
      hide CleanText, FindPropertyFromToken, Streamed, StreamUpdate, Concat, Utf16Length, ToHistory, Trim, AsciiLower, DecimalString;
      if IsBlank(input) || isTyping {
        return None;
      }
      var userMsg := ChatMessage(DecimalString(userTime), User, input, None);
      var sentBefore := messages;
      messages := messages + [userMsg];
      input := "";
      isTyping := true;
      history := Some(ToHistory(sentBefore + [userMsg]));

      var aid := DecimalString(assistantTime + 1);
      NumeralIsNotInit(assistantTime + 1);
      messages := messages + [ChatMessage(aid, Assistant, "", None)];
      assert messages == sentBefore + [userMsg, ChatMessage(aid, Assistant, "", None)];
      var fullText := StreamReply(aid, chunks);

      if fails {
        messages := messages + [ChatMessage("error-" + DecimalString(errorTime), Assistant, ErrorText, None)];
        showHandoff := true;
        isTyping := false;
      } else if MentionsWhatsApp(fullText) || |sentBefore| > 2 {
        showHandoff := true;
      }
    }

    /**
     * The `for await` loop of `handleSend`: each chunk is appended to the
     * full text, the messages with id `aid` are refreshed, the typing
     * indicator goes off at the first chunk and the hand-off is shown once the
     * text is longer than 40 code units.
     */
    method StreamReply(aid: string, chunks: seq<string>) returns (fullText: string)
      requires Valid() && aid != greeting.id
      modifies this
      ensures Valid()
      ensures fullText == Concat(chunks)
      ensures messages == Streamed(old(messages), aid, catalog, chunks)
      ensures isTyping == (old(isTyping) && chunks == [])
      ensures showHandoff == (old(showHandoff) || Utf16Length(fullText) > 40)
      ensures input == old(input)
    {
      hide CleanText, FindPropertyFromToken, StreamUpdate, Concat, Utf16Length;
      fullText := "";
      ghost var base := messages;
      var firstChunkReceived := false;
      var i := 0;
      NothingStreamed(base, aid, catalog, chunks);
      while i < |chunks|
        invariant 0 <= i <= |chunks|
        invariant fullText == Concat(chunks[..i])
        invariant messages == Streamed(base, aid, catalog, chunks[..i])
        invariant Valid()
        invariant firstChunkReceived == (i > 0)
        invariant isTyping == (old(isTyping) && i == 0)
        invariant showHandoff == (old(showHandoff) || Utf16Length(fullText) > 40)
        invariant input == old(input)
      {
        if !firstChunkReceived {
          isTyping := false;
          firstChunkReceived := true;
        }
        ConcatStep(chunks, i);
        Utf16LengthAppend(fullText, chunks[i]);
        StreamedStep(base, aid, catalog, chunks, i);
        fullText := fullText + chunks[i];
        var foundProp := FindPropertyFromToken(catalog, fullText);
        StreamUpdateKeepsHead(messages, aid, CleanText(fullText), foundProp);
        messages := StreamUpdate(messages, aid, CleanText(fullText), foundProp);
        if Utf16Length(fullText) > 40 && !showHandoff {
          showHandoff := true;
        }
        i := i + 1;
      }
      assert chunks[..i] == chunks;
    }

    /** The reset button: back to the first message, hand-off hidden. */
    method Reset()
      requires Valid()
      modifies this
      ensures Valid()
      ensures messages == [old(messages)[0]] && !showHandoff
      ensures input == old(input) && isTyping == old(isTyping)
    {
      messages := [messages[0]];
      showHandoff := false;
    }
  }
}
