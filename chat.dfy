/**
 * The client half (components/layout/sections/chat.tsx): the line parser
 * that rebuilds business cards from an assistant reply, the gate that decides
 * whether a reply carries cards, and the chat state that sending a message
 * updates.
 */
module Chat {
  import opened Wrappers
  import opened Text

  // ---------------------------------------------------------------------------
  // Parsed records
  // ---------------------------------------------------------------------------

  /**
   * A card as the parser builds it. Each field is filled only by a line that
   * carries it, so every field may be missing; the rating is the text the
   * parser hands to `parseFloat`.
   */
  datatype Business = Business(
    name: Option<string>,
    rating: Option<string>,
    price: Option<string>,
    availableTime: Option<string>,
    phone: Option<string>)

  /** The empty accumulator `{}`. */
  const NoFields := Business(None, None, None, None, None)

  /** `Object.keys(b).length > 0`: some field has been set. */
  predicate HasFields(b: Business) {
    b != NoFields
  }

  datatype Field = RatingField | PriceField | AvailableField | PhoneField

  function SetField(b: Business, f: Field, v: string): Business {
    match f
    case RatingField => b.(rating := Some(v))
    case PriceField => b.(price := Some(v))
    case AvailableField => b.(availableTime := Some(v))
    case PhoneField => b.(phone := Some(v))
  }

  function ClearField(b: Business, f: Field): Business {
    match f
    case RatingField => b.(rating := None)
    case PriceField => b.(price := None)
    case AvailableField => b.(availableTime := None)
    case PhoneField => b.(phone := None)
  }

  // ---------------------------------------------------------------------------
  // Reading one line
  // ---------------------------------------------------------------------------

  /** The line carries one of the four labels the parser looks for. */
  predicate HasLabel(line: string) {
    Contains(line, "Rating:") || Contains(line, "Price:") ||
    Contains(line, "Available:") || Contains(line, "Phone:")
  }

  /** `line.split(':')[1]`: the text between the first and the second colon. */
  function FieldText(line: string): (r: string)
    requires ':' in line
    ensures ':' !in r
  {
    SplitPartsLackSep(line, ':');
    Split(line, ':')[1]
  }

  /** What a line does to the parse. */
  datatype LineKind =
    | Blank
    | NameLine(name: string)
    | FieldLine(field: Field, value: string)
    | Unlabelled

  /**
   * The parser's case analysis of one line: blank lines are skipped, a line
   * without a colon names a new card, and a line with a colon fills the field
   * of the first label it carries, checked in the order Rating, Price,
   * Available, Phone.
   */
  function Classify(line: string): LineKind {
    if Trim(line) == "" then Blank
    else if ':' !in line then NameLine(Trim(line))
    else if Contains(line, "Rating:") then FieldLine(RatingField, Split(Trim(FieldText(line)), '/')[0])
    else if Contains(line, "Price:") then FieldLine(PriceField, Trim(FieldText(line)))
    else if Contains(line, "Available:") then FieldLine(AvailableField, Trim(FieldText(line)))
    else if Contains(line, "Phone:") then FieldLine(PhoneField, Trim(FieldText(line)))
    else Unlabelled
  }

  /**
   * The four kinds of line: blank exactly when all whitespace; a name line
   * has no colon and names the card by its trimmed, non-empty text; a line
   * with a colon fills a field exactly when it carries a label.
   */
  lemma ClassifyMeaning(line: string)
    ensures Classify(line).Blank? <==> forall i :: 0 <= i < |line| ==> IsWhitespace(line[i])
    ensures Classify(line).NameLine? <==> IsNameLine(line)
    ensures Classify(line).NameLine? ==>
      Classify(line).name == Trim(line) && Classify(line).name != [] && IsTrimmed(Classify(line).name)
    ensures Classify(line).FieldLine? <==> IsFieldLine(line)
    ensures Classify(line).Unlabelled? <==> ':' in line && !HasLabel(line)
  {
    TrimEmpty(line);
    TrimIsMiddle(line);
    if ':' in line && HasLabel(line) {
      // a labelled line has a letter in it, so it is not blank
      var w :| w in ["Rating:", "Price:", "Available:", "Phone:"] && Contains(line, w);
      var k := OccurrenceOf(line, w);
      assert !IsWhitespace(line[k]) by { assert line[k] == w[0]; }
    }
  }

  // ---------------------------------------------------------------------------
  // The parse as a function of the lines
  // ---------------------------------------------------------------------------

  /** The parser's state between lines: the cards pushed so far and the one being filled. */
  datatype ParseState = ParseState(done: seq<Business>, current: Business)

  const Start := ParseState([], NoFields)

  /** The cards pushed so far, plus the current one if it has any field. */
  function Flush(st: ParseState): seq<Business> {
    st.done + (if HasFields(st.current) then [st.current] else [])
  }

  function Step(st: ParseState, line: string): ParseState {
    match Classify(line)
    case Blank => st
    case Unlabelled => st
    case NameLine(n) => ParseState(Flush(st), NoFields.(name := Some(n)))
    case FieldLine(f, v) => st.(current := SetField(st.current, f, v))
  }

  function Run(st: ParseState, lines: seq<string>): ParseState
    decreases |lines|
  {
    if lines == [] then st else Run(Step(st, lines[0]), lines[1..])
  }

  /** The cards read from a sequence of lines. */
  function Records(lines: seq<string>): seq<Business> {
    Flush(Run(Start, lines))
  }

  /** The cards read from a reply, split into lines at '\n'. */
  function Parse(message: string): seq<Business> {
    Records(Split(message, '\n'))
  }

  /** `extractBusinessData`: walks the lines once, filling and pushing cards. */
  method ExtractBusinessData(message: string) returns (businesses: seq<Business>)
    ensures businesses == Parse(message)
  {
    businesses := [];
    var lines := Split(message, '\n');
    var current := NoFields;
    for i := 0 to |lines|
      invariant Run(ParseState(businesses, current), lines[i..]) == Run(Start, lines)
    {
      var line := lines[i];
      assert lines[i..] == [line] + lines[i + 1..];
      ghost var before := ParseState(businesses, current);
      if Trim(line) == "" {
        continue;
      }
      if ':' !in line && |Trim(line)| > 0 {
        if HasFields(current) {
          businesses := businesses + [current];
          current := NoFields;
        }
        current := current.(name := Some(Trim(line)));
      } else if Contains(line, "Rating:") {
        current := current.(rating := Some(Split(Trim(FieldText(line)), '/')[0]));
      } else if Contains(line, "Price:") {
        current := current.(price := Some(Trim(FieldText(line))));
      } else if Contains(line, "Available:") {
        current := current.(availableTime := Some(Trim(FieldText(line))));
      } else if Contains(line, "Phone:") {
        current := current.(phone := Some(Trim(FieldText(line))));
      }
      assert ParseState(businesses, current) == Step(before, line);
    }
    if HasFields(current) {
      businesses := businesses + [current];
    }
  }

  /** The reply is taken for a recommendation when it has both a "Rating:" and a "Phone:". */
  predicate LooksLikeRecommendation(reply: string) {
    Contains(reply, "Rating:") && Contains(reply, "Phone:")
  }

  /** The cards shown for a reply: its parse when it looks like a recommendation, none otherwise. */
  function CardsFor(reply: string): (r: seq<Business>)
    ensures !LooksLikeRecommendation(reply) ==> r == []
  {
    if LooksLikeRecommendation(reply) then Parse(reply) else []
  }

  // ---------------------------------------------------------------------------
  // What the parse does, line by line and as a whole
  // ---------------------------------------------------------------------------

  lemma {:induction false} RunAppend(st: ParseState, a: seq<string>, b: seq<string>)
    ensures Run(st, a + b) == Run(Run(st, a), b)
    decreases |a|
  {
    if a == [] {
      assert a + b == b;
    } else {
      assert (a + b)[0] == a[0];
      assert (a + b)[1..] == a[1..] + b;
      RunAppend(Step(st, a[0]), a[1..], b);
    }
  }

  /** The lines that are not blank after trimming, in order. */
  function NonBlank(lines: seq<string>): (r: seq<string>)
    ensures forall i :: 0 <= i < |r| ==> Trim(r[i]) != ""
  {
    if lines == [] then []
    else if Trim(lines[0]) == "" then NonBlank(lines[1..])
    else [lines[0]] + NonBlank(lines[1..])
  }

  lemma {:induction false} RunNonBlank(st: ParseState, lines: seq<string>)
    ensures Run(st, lines) == Run(st, NonBlank(lines))
    decreases |lines|
  {
    if lines != [] {
      RunNonBlank(Step(st, lines[0]), lines[1..]);
      if Trim(lines[0]) == "" {
        RunNonBlank(st, lines[1..]);
      } else {
        var r := NonBlank(lines);
        assert r[0] == lines[0] && r[1..] == NonBlank(lines[1..]);
      }
    }
  }

  /** Lines that are empty after trimming never change the cards. */
  lemma BlankLinesIgnored(lines: seq<string>)
    ensures Records(lines) == Records(NonBlank(lines))
  {
    RunNonBlank(Start, lines);
  }

  /** A reply with no non-blank line yields no cards. */
  lemma NothingToRead(message: string)
    requires forall i :: 0 <= i < |Split(message, '\n')| ==> Trim(Split(message, '\n')[i]) == ""
    ensures Parse(message) == []
  {
    var lines := Split(message, '\n');
    BlankLinesIgnored(lines);
    NonBlankOfBlanks(lines);
  }

  lemma {:induction false} NonBlankOfBlanks(lines: seq<string>)
    requires forall i :: 0 <= i < |lines| ==> Trim(lines[i]) == ""
    ensures NonBlank(lines) == []
    decreases |lines|
  {
    if lines != [] { NonBlankOfBlanks(lines[1..]); }
  }

  /**
   * A blank line, or a line with a colon but none of the four labels, can be
   * removed from anywhere without changing the cards.
   */
  lemma InertLineIgnored(pre: seq<string>, line: string, post: seq<string>)
    requires Trim(line) == "" || (':' in line && !HasLabel(line))
    ensures Records(pre + [line] + post) == Records(pre + post)
  {
    RunAppend(Start, pre, [line] + post);
    RunAppend(Start, pre, post);
    assert pre + [line] + post == pre + ([line] + post);
    assert ([line] + post)[1..] == post;
  }

  /** A line that starts a new card: not blank and without a colon. */
  predicate IsNameLine(line: string) {
    Trim(line) != "" && ':' !in line
  }

  /** A line that fills a field: it has a colon and one of the labels. */
  predicate IsFieldLine(line: string) {
    ':' in line && HasLabel(line)
  }

  /** The trimmed text of every name line, in order. */
  function NameLines(lines: seq<string>): seq<string> {
    if lines == [] then []
    else if IsNameLine(lines[0]) then [Trim(lines[0])] + NameLines(lines[1..])
    else NameLines(lines[1..])
  }

  /** Some field line comes before the first name line. */
  predicate FieldBeforeName(lines: seq<string>) {
    lines != [] && !IsNameLine(lines[0]) && (IsFieldLine(lines[0]) || FieldBeforeName(lines[1..]))
  }

  function Names(bs: seq<Business>): (r: seq<Option<string>>)
    ensures |r| == |bs|
  {
    seq(|bs|, i requires 0 <= i < |bs| => bs[i].name)
  }

  function SomeNames(names: seq<string>): (r: seq<Option<string>>)
    ensures |r| == |names|
  {
    seq(|names|, i requires 0 <= i < |names| => Some(names[i]))
  }

  /** The names of the cards read from `lines` after the state `st`. */
  predicate NamesAfter(st: ParseState, lines: seq<string>) {
    Names(Flush(Run(st, lines))) ==
      Names(st.done)
      + (if HasFields(st.current) || FieldBeforeName(lines) then [st.current.name] else [])
      + SomeNames(NameLines(lines))
  }

  lemma {:induction false} RunNames(st: ParseState, lines: seq<string>)
    ensures NamesAfter(st, lines)
    decreases |lines|
  {
    if lines != [] {
      var l := lines[0];
      RunNames(Step(st, l), lines[1..]);
      ClassifyMeaning(l);
      if IsNameLine(l) {
        NameLineNames(st, lines);
      } else {
        OtherLineNames(st, lines);
      }
    }
  }

  lemma NameLineNames(st: ParseState, lines: seq<string>)
    requires lines != [] && IsNameLine(lines[0]) && Classify(lines[0]) == NameLine(Trim(lines[0]))
    requires NamesAfter(Step(st, lines[0]), lines[1..])
    ensures NamesAfter(st, lines)
  {
    var n := Trim(lines[0]);
    var next := Step(st, lines[0]);
    assert next == ParseState(Flush(st), NoFields.(name := Some(n)));
    assert NameLines(lines) == [n] + NameLines(lines[1..]);
    assert Names(Flush(st)) == Names(st.done) + (if HasFields(st.current) then [st.current.name] else []);
    assert SomeNames(NameLines(lines)) == [Some(n)] + SomeNames(NameLines(lines[1..]));
  }

  lemma OtherLineNames(st: ParseState, lines: seq<string>)
    requires lines != [] && !IsNameLine(lines[0]) && !Classify(lines[0]).NameLine?
    requires Classify(lines[0]).FieldLine? <==> IsFieldLine(lines[0])
    requires NamesAfter(Step(st, lines[0]), lines[1..])
    ensures NamesAfter(st, lines)
  {
    var next := Step(st, lines[0]);
    assert NameLines(lines) == NameLines(lines[1..]);
    if Classify(lines[0]).FieldLine? {
      assert next.current.name == st.current.name && HasFields(next.current);
      assert FieldBeforeName(lines);
    } else {
      assert next == st;
      assert FieldBeforeName(lines) == FieldBeforeName(lines[1..]);
    }
  }

  /**
   * The cards correspond to the name lines, in order: one card named by each
   * name line's trimmed text, preceded by one unnamed card exactly when a
   * field line comes before the first name line.
   */
  lemma RecordNames(lines: seq<string>)
    ensures Names(Records(lines)) ==
      (if FieldBeforeName(lines) then [None] else []) + SomeNames(NameLines(lines))
    ensures |Records(lines)| == |NameLines(lines)| + (if FieldBeforeName(lines) then 1 else 0)
  {
    RunNames(Start, lines);
  }

  /**
   * A name line pushes the card being filled only when it has some field,
   * and starts a card holding just the trimmed name.
   */
  lemma NameLineStep(st: ParseState, line: string)
    requires IsNameLine(line)
    ensures Step(st, line).done == st.done + (if HasFields(st.current) then [st.current] else [])
    ensures Step(st, line).current == NoFields.(name := Some(Trim(line)))
  {
    ClassifyMeaning(line);
  }

  /** Two name lines in a row leave a card that holds only the first name. */
  lemma NameOnlyRecord(st: ParseState, first: string, second: string)
    requires IsNameLine(first) && IsNameLine(second)
    ensures Run(st, [first, second]).done ==
      Flush(st) + [Business(Some(Trim(first)), None, None, None, None)]
  {
    NameLineStep(st, first);
    var next := Step(st, first);
    NameLineStep(next, second);
    assert HasFields(next.current) by { assert next.current.name.Some?; }
    assert [first, second][1..] == [second];
    assert Run(st, [first, second]) == Run(next, [second]) == Step(next, second);
  }

  /** `SetField` depends on the other fields only: clearing the field first changes nothing. */
  lemma SetAfterClear(x: Business, y: Business, f: Field, v: string)
    requires ClearField(x, f) == ClearField(y, f)
    ensures SetField(x, f, v) == SetField(y, f, v)
  {
  }

  predicate SetsField(line: string, f: Field) {
    Classify(line).FieldLine? && Classify(line).field == f
  }

  lemma {:induction false} OverwrittenField(s1: ParseState, s2: ParseState, mid: seq<string>,
                                            b: string, f: Field)
    requires s1.done == s2.done && ClearField(s1.current, f) == ClearField(s2.current, f)
    requires SetsField(b, f)
    requires forall i :: 0 <= i < |mid| ==> !Classify(mid[i]).NameLine? && !SetsField(mid[i], f)
    ensures Run(s1, mid + [b]) == Run(s2, mid + [b])
    decreases |mid|
  {
    var k := Classify(b);
    if mid == [] {
      SetAfterClear(s1.current, s2.current, f, k.value);
    } else {
      assert (mid + [b])[0] == mid[0];
      assert (mid + [b])[1..] == mid[1..] + [b];
      var t1, t2 := Step(s1, mid[0]), Step(s2, mid[0]);
      assert ClearField(t1.current, f) == ClearField(t2.current, f);
      OverwrittenField(t1, t2, mid[1..], b, f);
    }
  }

  /**
   * Within one card a later line for the same field overwrites an earlier
   * one: with no name line and no line for that field in between, the earlier
   * line can be dropped.
   */
  lemma LastWriteWins(pre: seq<string>, a: string, mid: seq<string>, b: string, post: seq<string>,
                      f: Field)
    requires SetsField(a, f) && SetsField(b, f)
    requires forall i :: 0 <= i < |mid| ==> !Classify(mid[i]).NameLine? && !SetsField(mid[i], f)
    ensures Records(pre + [a] + mid + [b] + post) == Records(pre + mid + [b] + post)
  {
    var s := Run(Start, pre);
    var tail := (mid + [b]) + post;
    assert pre + [a] + mid + [b] + post == pre + ([a] + tail);
    assert pre + mid + [b] + post == pre + tail;
    RunAppend(Start, pre, [a] + tail);
    RunAppend(Start, pre, tail);
    RunCons(s, a, tail);
    RunAppend(Step(s, a), mid + [b], post);
    RunAppend(s, mid + [b], post);
    StepSetsField(s, a, f);
    OverwrittenField(Step(s, a), s, mid, b, f);
  }

  lemma RunCons(st: ParseState, line: string, lines: seq<string>)
    ensures Run(st, [line] + lines) == Run(Step(st, line), lines)
  {
    assert ([line] + lines)[1..] == lines;
  }

  /** A blank or unlabelled line leaves the parse state as it is. */
  lemma InertStep(st: ParseState, line: string)
    requires Classify(line) == Blank || Classify(line) == Unlabelled
    ensures Step(st, line) == st
  {
  }

  /** A line that sets field `f` changes nothing but that field of the current card. */
  lemma StepSetsField(st: ParseState, line: string, f: Field)
    requires SetsField(line, f)
    ensures Step(st, line).done == st.done
    ensures ClearField(Step(st, line).current, f) == ClearField(st.current, f)
  {
  }

  /**
   * A field's value is the segment between the first and second colon: text
   * after a second colon is dropped.
   */
  lemma FieldTextBetweenColons(before: string, v: string, after: string)
    requires ':' !in before && ':' !in v
    ensures FieldText(before + ":" + v) == v
    ensures FieldText(before + ":" + v + ":" + after) == v
  {
    SplitAppend(before, ':', v);
    assert before + ":" + v + ":" + after == before + [':'] + (v + [':'] + after);
    SplitAppend(before, ':', v + [':'] + after);
    SplitAppend(v, ':', after);
  }

  /** The label a colon-free prefix ends in, tried in the parser's order. */
  function LabelOf(p: string): (r: Option<Field>)
    ensures r == Some(RatingField) <==> EndsWith(p, "Rating")
    ensures r == None <==>
      !EndsWith(p, "Rating") && !EndsWith(p, "Price") && !EndsWith(p, "Available") && !EndsWith(p, "Phone")
  {
    if EndsWith(p, "Rating") then Some(RatingField)
    else if EndsWith(p, "Price") then Some(PriceField)
    else if EndsWith(p, "Available") then Some(AvailableField)
    else if EndsWith(p, "Phone") then Some(PhoneField)
    else None
  }

  /**
   * A line with exactly one colon, `p + ":" + v`: it fills the field whose
   * label ends `p` (the first in the parser's order), with the trimmed text after the colon (for the rating,
   * the part before a '/'); with no such label it changes nothing.
   */
  lemma ClassifyLabelled(p: string, v: string)
    requires ':' !in p && ':' !in v
    ensures LabelOf(p) == None ==> Classify(p + ":" + v) == Unlabelled
    ensures LabelOf(p) == Some(RatingField) ==>
      Classify(p + ":" + v) == FieldLine(RatingField, Split(Trim(v), '/')[0])
    ensures LabelOf(p).Some? && LabelOf(p) != Some(RatingField) ==>
      Classify(p + ":" + v) == FieldLine(LabelOf(p).value, Trim(v))
  {
    var line := p + ":" + v;
    assert line[|p|] == ':';
    TrimEmpty(line);
    FieldTextBetweenColons(p, v, "");
    assert p + ":" + v + "" == line;
    WordAtColon(p, "Rating", v);
    WordAtColon(p, "Price", v);
    WordAtColon(p, "Available", v);
    WordAtColon(p, "Phone", v);
    assert "Rating" + ":" == "Rating:" && "Price" + ":" == "Price:";
    assert "Available" + ":" == "Available:" && "Phone" + ":" == "Phone:";
  }

  /**
   * The server's "Estimated Price:" line fills the price, because the parser
   * matches the label "Price:" anywhere in the line.
   */
  lemma EstimatedPriceFillsPrice(v: string)
    requires ':' !in v
    ensures Classify("Estimated Price:" + v) == FieldLine(PriceField, Trim(v))
  {
    var p := "Estimated Price";
    assert p[|p| - |"Rating"|..] != "Rating" by { assert p[9] != "Rating"[0]; }
    assert p[|p| - |"Price"|..] == "Price";
    ClassifyLabelled(p, v);
    assert p + ":" + v == "Estimated Price:" + v;
  }

  // ---------------------------------------------------------------------------
  // The chat state and sending a message
  // ---------------------------------------------------------------------------

  datatype Role = User | Assistant

  datatype Message = Message(role: Role, content: string)

  const Greeting := "How can I help you? Describe your problem and we'll fix it!"

  const Apology := "Sorry, there was an error processing your request."

  /** The chat widget's state: the history, the input box, the loading flag and the cards. */
  class ChatSession {
    var messages: seq<Message>
    var inputMessage: string
    var isLoading: bool
    var businesses: seq<Business>

    /**
     * The history opens with the assistant's greeting and alternates
     * assistant and user turns; a request is in flight exactly when the last
     * turn is the user's.
     */
    ghost predicate Valid()
      reads this
    {
      |messages| >= 1 &&
      (forall i :: 0 <= i < |messages| ==> messages[i].role == (if i % 2 == 0 then Assistant else User)) &&
      (isLoading <==> |messages| % 2 == 0)
    }

    constructor ()
      ensures Valid()
      ensures messages == [Message(Assistant, Greeting)]
      ensures inputMessage == "" && !isLoading && businesses == []
    {
      messages := [Message(Assistant, Greeting)];
      inputMessage := "";
      isLoading := false;
      businesses := [];
    }

    /** The input box's change handler. */
    method SetInput(text: string)
      requires Valid()
      modifies this
      ensures Valid()
      ensures inputMessage == text
      ensures messages == old(messages) && isLoading == old(isLoading) && businesses == old(businesses)
    {
      inputMessage := text;
    }

    /**
     * The part of `handleSendMessage` before the request: nothing happens
     * when the trimmed input is empty or a request is in flight; otherwise
     * the raw input is appended as a user turn, the box is cleared, loading
     * starts, and the request carries the old history plus that turn.
     */
    method BeginSend() returns (request: Option<seq<Message>>)
      requires Valid()
      modifies this
      ensures Valid()
      ensures businesses == old(businesses)
      ensures Trim(old(inputMessage)) == "" || old(isLoading) ==>
        request == None && messages == old(messages) && inputMessage == old(inputMessage) &&
        isLoading == old(isLoading)
      ensures Trim(old(inputMessage)) != "" && !old(isLoading) ==>
        request == Some(old(messages) + [Message(User, old(inputMessage))]) &&
        messages == request.value && inputMessage == "" && isLoading
    {
      if Trim(inputMessage) == "" || isLoading {
        return None;
      }
      var newUserMessage := Message(User, inputMessage);
      messages := messages + [newUserMessage];
      inputMessage := "";
      isLoading := true;
      request := Some(messages);
    }

    /**
     * The part of `handleSendMessage` after the request: a reply becomes the
     * assistant's turn and sets the cards (its parse if it looks like a
     * recommendation, none otherwise); a failed request adds the apology and
     * leaves the cards alone. Loading stops either way.
     */
    method ReceiveReply(reply: Option<string>)
      requires Valid() && isLoading
      modifies this
      ensures Valid() && !isLoading
      ensures inputMessage == old(inputMessage)
      ensures reply.Some? ==>
        messages == old(messages) + [Message(Assistant, reply.value)] &&
        businesses == CardsFor(reply.value)
      ensures reply.None? ==>
        messages == old(messages) + [Message(Assistant, Apology)] &&
        businesses == old(businesses)
    {
      match reply {
        case Some(newMessage) =>
          if Contains(newMessage, "Rating:") && Contains(newMessage, "Phone:") {
            var extracted := ExtractBusinessData(newMessage);
            businesses := extracted;
          } else {
            businesses := [];
          }
          messages := messages + [Message(Assistant, newMessage)];
        case None =>
          messages := messages + [Message(Assistant, Apology)];
      }
      isLoading := false;
    }

    /**
     * `handleSendMessage` as a whole, with the server's answer to a request
     * given by `respond` (None for any failure of the request).
     */
    method SendMessage(respond: seq<Message> -> Option<string>) returns (request: Option<seq<Message>>)
      requires Valid()
      modifies this
      ensures Valid()
      ensures Trim(old(inputMessage)) == "" || old(isLoading) ==>
        request == None && messages == old(messages) && inputMessage == old(inputMessage) &&
        isLoading == old(isLoading) && businesses == old(businesses)
      ensures Trim(old(inputMessage)) != "" && !old(isLoading) ==>
        var sent := old(messages) + [Message(User, old(inputMessage))];
        var answer := respond(sent);
        request == Some(sent) && inputMessage == "" && !isLoading &&
        messages == sent + [Message(Assistant, if answer.Some? then answer.value else Apology)] &&
        businesses == (if answer.Some? then CardsFor(answer.value) else old(businesses))
    {
      request := BeginSend();
      if request.Some? {
        ReceiveReply(respond(request.value));
      }
    }
  }
}
