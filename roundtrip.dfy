/**
 * The server and the client together: the cards the client rebuilds from the
 * server's recommendation text are exactly the providers the server listed,
 * in order, with the same fields.
 */
module RoundTrip {
  import opened Wrappers
  import opened Text
  import Route
  import Chat

  /** A value that fits on one line and has no colon in it. */
  predicate PlainText(s: string) {
    ':' !in s && '\n' !in s
  }

  /**
   * A provider whose fields survive the text format: every field is plain
   * text without surrounding whitespace, and the name is not empty.
   */
  predicate WellFormed(p: Route.Provider) {
    p.name != [] &&
    PlainText(p.name) && PlainText(p.price) && PlainText(p.availableTime) && PlainText(p.phone) &&
    IsTrimmed(p.name) && IsTrimmed(p.price) && IsTrimmed(p.availableTime) && IsTrimmed(p.phone)
  }

  /** The card the client should show for a provider; the rating is its rendered text. */
  function ToBusiness(p: Route.Provider): Chat.Business {
    Chat.Business(Some(p.name), Some(Route.RatingText(p.ratingTenths)), Some(p.price),
                  Some(p.availableTime), Some(p.phone))
  }

  function Cards(ps: seq<Route.Provider>): (r: seq<Chat.Business>)
    ensures |r| == |ps|
  {
    seq(|ps|, i requires 0 <= i < |ps| => ToBusiness(ps[i]))
  }

  /** Every record of the fixed directory survives the text format. */
  lemma DirectoryWellFormed()
    ensures forall i :: 0 <= i < |Route.Directory()| ==> WellFormed(Route.Directory()[i])
  {
    var d := Route.Directory();
    FirstWellFormed();
    SecondWellFormed();
    ThirdWellFormed();
  }

  /** A field value that survives the text format. */
  predicate FitsField(s: string) {
    PlainText(s) && IsTrimmed(s)
  }

  lemma WellFormedFields(p: Route.Provider)
    requires p.name != [] && FitsField(p.name) && FitsField(p.price)
    requires FitsField(p.availableTime) && FitsField(p.phone)
    ensures WellFormed(p)
  {
  }

  lemma FirstWellFormed()
    ensures WellFormed(Route.Directory()[0])
  {
    var p := Route.Directory()[0];
    FirstFields();
    WellFormedFields(p);
  }

  lemma FirstFields()
    ensures FitsField("Quick Fix Appliances") && FitsField("$80-120")
    ensures FitsField("Today, 2-4 PM") && FitsField("(555) 123-4567")
  {
    assert FitsField("Quick Fix Appliances");
    assert FitsField("$80-120");
    assert FitsField("Today, 2-4 PM");
  }

  lemma SecondWellFormed()
    ensures WellFormed(Route.Directory()[1])
  {
    var p := Route.Directory()[1];
    SecondFields();
    WellFormedFields(p);
  }

  lemma SecondFields()
    ensures FitsField("Pro Appliance Repair") && FitsField("$70-100")
    ensures FitsField("Tomorrow, 9-11 AM") && FitsField("(555) 234-5678")
  {
    assert FitsField("Pro Appliance Repair");
    assert FitsField("$70-100");
    assert FitsField("Tomorrow, 9-11 AM");
  }

  lemma ThirdWellFormed()
    ensures WellFormed(Route.Directory()[2])
  {
    var p := Route.Directory()[2];
    ThirdFields();
    WellFormedFields(p);
  }

  lemma ThirdFields()
    ensures FitsField("Expert Home Services") && FitsField("$90-130")
    ensures FitsField("Today, 5-7 PM") && FitsField("(555) 345-6789")
  {
    assert FitsField("Expert Home Services");
    assert FitsField("$90-130");
    assert FitsField("Today, 5-7 PM");
  }

  // ---------------------------------------------------------------------------
  // The lines of the message
  // ---------------------------------------------------------------------------

  /** The lines of the joined blocks: each block's lines, with one empty line between blocks. */
  function MessageLines(ps: seq<Route.Provider>): seq<string> {
    if ps == [] then []
    else if |ps| == 1 then Route.BlockLines(ps[0])
    else Route.BlockLines(ps[0]) + ([""] + MessageLines(ps[1..]))
  }

  /** Joining the blocks with a blank line between them is joining all their lines with newlines. */
  lemma {:induction false} JoinBlocksLines(ps: seq<Route.Provider>)
    requires ps != []
    ensures Route.JoinBlocks(ps) == Join(MessageLines(ps), "\n")
    decreases |ps|
  {
    if |ps| > 1 {
      JoinBlocksLines(ps[1..]);
      JoinBlocksCons(ps);
      MessageLinesCons(ps);
    }
  }

  lemma JoinBlocksCons(ps: seq<Route.Provider>)
    requires |ps| > 1
    ensures Route.JoinBlocks(ps) == Route.Block(ps[0]) + "\n\n" + Route.JoinBlocks(ps[1..])
  {
    var blocks := Route.Blocks(ps);
    assert blocks[1..] == Route.Blocks(ps[1..]);
    JoinCons(blocks, "\n\n");
  }

  lemma MessageLinesCons(ps: seq<Route.Provider>)
    requires |ps| > 1
    ensures Join(MessageLines(ps), "\n") ==
      Route.Block(ps[0]) + "\n\n" + Join(MessageLines(ps[1..]), "\n")
  {
    var a := Route.BlockLines(ps[0]);
    var b := MessageLines(ps[1..]);
    assert MessageLines(ps) == a + ([""] + b);
    JoinAroundEmpty(a, b, "\n");
    assert "\n" + "\n" == "\n\n";
  }

  /** No line of a well-formed provider's block holds a newline. */
  lemma BlockLinesPlain(p: Route.Provider)
    requires WellFormed(p)
    ensures forall i :: 0 <= i < 6 ==> '\n' !in Route.BlockLines(p)[i]
  {
    var r := Route.RatingText(p.ratingTenths);
    assert '\n' !in r by {
      forall i | 0 <= i < |r| ensures r[i] != '\n' { }
    }
  }

  lemma {:induction false} MessageLinesPlain(ps: seq<Route.Provider>)
    requires forall i :: 0 <= i < |ps| ==> WellFormed(ps[i])
    ensures forall i :: 0 <= i < |MessageLines(ps)| ==> '\n' !in MessageLines(ps)[i]
    decreases |ps|
  {
    if ps != [] {
      var a := Route.BlockLines(ps[0]);
      BlockLinesPlain(ps[0]);
      if |ps| > 1 {
        var b := MessageLines(ps[1..]);
        var lines := a + ([""] + b);
        assert MessageLines(ps) == lines;
        MessageLinesPlain(ps[1..]);
        forall i | 0 <= i < |lines| ensures '\n' !in lines[i] {
          if i < 6 {
            assert lines[i] == a[i];
          } else if i > 6 {
            assert lines[i] == b[i - 7];
          }
        }
      }
    }
  }

  /**
   * Analysis text the header can echo: one line, holding none of the four
   * labels. It may hold a colon.
   */
  predicate Echoable(s: string) {
    '\n' !in s && !Chat.HasLabel(s)
  }

  /** The header's closing words, before their colon, written in short pieces. */
  function ClosingWords(): string {
    ", here are the " + "best service " + "providers I found"
  }

  lemma ClosingSteps()
    ensures "best service " + ("providers I found" + ":") == "best service providers I found:"
  {
    assert "providers I found" + ":" == "providers I found:";
  }

  /** The header's closing text is its closing words and a colon. */
  lemma ClosingText()
    ensures ", here are the best service providers I found:" == ClosingWords() + ":"
  {
    ClosingSteps();
    assert ", here are the " + ("best service " + ("providers I found" + ":")) ==
      ", here are the best service providers I found:";
  }

  lemma ClosingWordsShape()
    ensures ':' !in ClosingWords() && '\n' !in ClosingWords()
    ensures ClosingWords() != [] && ClosingWords()[0] == ','
    ensures ClosingWords()[|ClosingWords()| - 1] == 'd'
  {
    assert ':' !in ", here are the " && ':' !in "best service " && ':' !in "providers I found";
    assert '\n' !in ", here are the " && '\n' !in "best service " && '\n' !in "providers I found";
  }

  /** A label whose word does not end in 'd' is absent from the closing words and colon. */
  lemma ClosingLacks(closing: string, word: string)
    requires closing == ClosingWords() + ":"
    requires ':' !in word && word != [] && word[|word| - 1] != 'd'
    ensures !Contains(closing, word + ":")
  {
    ClosingWordsShape();
    WordAtColon(ClosingWords(), word, "");
    assert ClosingWords() + ":" + "" == closing;
  }

  /** The fixed words between the echoed values hold no colon and begin and end with a space. */
  lemma GlueShape()
    ensures ':' !in "Based on your " && ':' !in " issue in " && ':' !in " for "
    ensures '\n' !in "Based on your " && '\n' !in " issue in " && '\n' !in " for "
    ensures "Based on your "[13] == ' ' && " issue in "[0] == ' ' && " issue in "[9] == ' '
    ensures " for "[0] == ' ' && " for "[4] == ' '
  {
  }

  /** A label without spaces or commas that is absent from the three echoed values is absent from the header. */
  lemma HeaderLacks(problemType: string, zipCode: string, timing: string, word: string)
    requires ':' !in word && ' ' !in word && ',' !in word && word != [] && word[|word| - 1] != 'd'
    requires !Contains(problemType, word + ":") && !Contains(zipCode, word + ":")
    requires !Contains(timing, word + ":")
    ensures !Contains(Route.Header(problemType, zipCode, timing), word + ":")
  {
    var w := word + ":";
    var a, b, c, d := "Based on your ", " issue in ", " for ", ", here are the best service providers I found:";
    GlueShape();
    NotContainsWithout(a, w, ':');
    NotContainsWithout(b, w, ':');
    NotContainsWithout(c, w, ':');
    ClosingText();
    ClosingLacks(d, word);
    ClosingWordsShape();
    assert d[0] == ',';
    var s1 := a + problemType;
    NotContainsJoin(a, problemType, w);
    NotContainsJoin(s1, b, w);
    var s2 := s1 + b;
    NotContainsJoin(s2, zipCode, w);
    var s3 := s2 + zipCode;
    NotContainsJoin(s3, c, w);
    var s4 := s3 + c;
    NotContainsJoin(s4, timing, w);
    var s5 := s4 + timing;
    NotContainsJoin(s5, d, w);
  }

  /** The header is one line and ends in a colon when the three echoed values are one line each. */
  lemma HeaderOneLine(problemType: string, zipCode: string, timing: string)
    requires '\n' !in problemType && '\n' !in zipCode && '\n' !in timing
    ensures '\n' !in Route.Header(problemType, zipCode, timing)
    ensures ':' in Route.Header(problemType, zipCode, timing)
  {
    GlueShape();
    ClosingText();
    ClosingWordsShape();
  }

  /** The four labels, each a word followed by a colon. */
  lemma LabelWords()
    ensures "Rating:" == "Rating" + ":" && "Price:" == "Price" + ":"
    ensures "Available:" == "Available" + ":" && "Phone:" == "Phone" + ":"
    ensures ':' !in "Rating" && ' ' !in "Rating" && ',' !in "Rating"
    ensures ':' !in "Price" && ' ' !in "Price" && ',' !in "Price"
    ensures ':' !in "Available" && ' ' !in "Available" && ',' !in "Available"
    ensures ':' !in "Phone" && ' ' !in "Phone" && ',' !in "Phone"
  {
  }

  /**
   * When the three echoed values are one line each and hold no label, the
   * header is one line that ends in a colon and holds no label either.
   */
  lemma HeaderHasNoLabel(problemType: string, zipCode: string, timing: string)
    requires Echoable(problemType) && Echoable(zipCode) && Echoable(timing)
    ensures var h := Route.Header(problemType, zipCode, timing);
      '\n' !in h && ':' in h && !Chat.HasLabel(h)
  {
    HeaderOneLine(problemType, zipCode, timing);
    LabelWords();
    HeaderLacks(problemType, zipCode, timing, "Rating");
    HeaderLacks(problemType, zipCode, timing, "Price");
    HeaderLacks(problemType, zipCode, timing, "Available");
    HeaderLacks(problemType, zipCode, timing, "Phone");
  }

  /** The header has a colon but none of the four labels, so it changes nothing. */
  lemma HeaderIgnored(problemType: string, zipCode: string, timing: string)
    requires Echoable(problemType) && Echoable(zipCode) && Echoable(timing)
    ensures Chat.Classify(Route.Header(problemType, zipCode, timing)) == Chat.Unlabelled
  {
    HeaderHasNoLabel(problemType, zipCode, timing);
    Chat.ClassifyMeaning(Route.Header(problemType, zipCode, timing));
  }

  /** The lines of a non-empty list start with the first provider's block. */
  lemma MessageLinesStart(ps: seq<Route.Provider>)
    requires ps != []
    ensures |MessageLines(ps)| >= 6 && MessageLines(ps)[..6] == Route.BlockLines(ps[0])
  {
  }

  /** With a provider listed, the message is the header and the block lines joined by newlines. */
  lemma MessageJoin(problemType: string, zipCode: string, timing: string, ps: seq<Route.Provider>)
    requires ps != []
    ensures Route.RecommendationMessage(problemType, zipCode, timing, ps) ==
      Join([Route.Header(problemType, zipCode, timing)] + MessageLines(ps), "\n")
  {
    var h := Route.Header(problemType, zipCode, timing);
    var lines := [h] + MessageLines(ps);
    JoinBlocksLines(ps);
    MessageLinesStart(ps);
    assert lines[1..] == MessageLines(ps);
    JoinCons(lines, "\n");
  }

  /** Splitting a header line and further lines, joined by newlines, gives them back. */
  lemma SplitHeaderAndLines(h: string, rest: seq<string>)
    requires '\n' !in h
    requires forall i :: 0 <= i < |rest| ==> '\n' !in rest[i]
    ensures Split(Join([h] + rest, "\n"), '\n') == [h] + rest
  {
    var lines := [h] + rest;
    forall i | 0 <= i < |lines| ensures '\n' !in lines[i] {
      if i > 0 { assert lines[i] == rest[i - 1]; }
    }
    SplitJoinLines(lines);
  }

  /** The message splits into the header line followed by the lines of the blocks. */
  lemma MessageSplit(problemType: string, zipCode: string, timing: string, ps: seq<Route.Provider>)
    requires Echoable(problemType) && Echoable(zipCode) && Echoable(timing)
    requires forall i :: 0 <= i < |ps| ==> WellFormed(ps[i])
    requires ps != []
    ensures Split(Route.RecommendationMessage(problemType, zipCode, timing, ps), '\n') ==
      [Route.Header(problemType, zipCode, timing)] + MessageLines(ps)
  {
    HeaderHasNoLabel(problemType, zipCode, timing);
    MessageJoin(problemType, zipCode, timing, ps);
    MessageLinesPlain(ps);
    SplitHeaderAndLines(Route.Header(problemType, zipCode, timing), MessageLines(ps));
  }

  /** With no provider listed, the message is the header line and one empty line. */
  lemma EmptyMessageSplit(problemType: string, zipCode: string, timing: string)
    requires Echoable(problemType) && Echoable(zipCode) && Echoable(timing)
    ensures Split(Route.RecommendationMessage(problemType, zipCode, timing, []), '\n') ==
      [Route.Header(problemType, zipCode, timing), ""]
  {
    var h := Route.Header(problemType, zipCode, timing);
    HeaderHasNoLabel(problemType, zipCode, timing);
    SplitAppend(h, '\n', "");
    assert Route.RecommendationMessage(problemType, zipCode, timing, []) == h + ['\n'] + "";
  }

  /** A provider's name is read as a name line that starts a new card. */
  lemma NameLineRead(p: Route.Provider)
    requires WellFormed(p)
    ensures Chat.Classify(p.name) == Chat.NameLine(p.name)
  {
    TrimOfTrimmed(p.name);
  }

  /** The rating line fills the rating with the rendered rating, the text before "/5". */
  lemma RatingLineRead(tenths: nat)
    ensures Chat.Classify("Rating: " + Route.RatingText(tenths) + "/5") ==
      Chat.FieldLine(Chat.RatingField, Route.RatingText(tenths))
  {
    var r := Route.RatingText(tenths);
    var v := " " + r + "/5";
    assert "Rating: " + r + "/5" == "Rating" + ":" + v;
    assert ':' !in r && '/' !in r by {
      forall i | 0 <= i < |r| ensures r[i] != ':' && r[i] != '/' { }
    }
    Chat.ClassifyLabelled("Rating", v);
    RatingValueRead(r);
  }

  /** The rating's value is the trimmed text after the colon up to the '/'. */
  lemma RatingValueRead(r: string)
    requires r != [] && !IsWhitespace(r[0]) && '/' !in r
    ensures Split(Trim(" " + r + "/5"), '/')[0] == r
  {
    assert IsTrimmed(r + "/5") by { assert (r + "/5")[0] == r[0]; }
    assert " " + r + "/5" == [' '] + (r + "/5");
    TrimAfterSpace(r + "/5");
    assert r + "/5" == r + ['/'] + "5";
    SplitAppend(r, '/', "5");
  }

  /** The "Estimated Price" line fills the price. */
  lemma PriceLineRead(price: string)
    requires PlainText(price) && IsTrimmed(price)
    ensures Chat.Classify("Estimated Price: " + price) == Chat.FieldLine(Chat.PriceField, price)
  {
    assert "Estimated Price: " + price == "Estimated Price:" + ([' '] + price);
    Chat.EstimatedPriceFillsPrice([' '] + price);
    TrimAfterSpace(price);
  }

  /** The "Available" line fills the availability. */
  lemma AvailableLineRead(time: string)
    requires PlainText(time) && IsTrimmed(time)
    ensures Chat.Classify("Available: " + time) == Chat.FieldLine(Chat.AvailableField, time)
  {
    var p := "Available";
    assert "Available: " + time == p + ":" + ([' '] + time);
    assert p[|p| - 6..] != "Rating" by { assert p[3] != "Rating"[0]; }
    assert p[|p| - 5..] != "Price" by { assert p[4] != "Price"[0]; }
    Chat.ClassifyLabelled(p, [' '] + time);
    TrimAfterSpace(time);
  }

  /** The "Phone" line fills the phone number. */
  lemma PhoneLineRead(phone: string)
    requires PlainText(phone) && IsTrimmed(phone)
    ensures Chat.Classify("Phone: " + phone) == Chat.FieldLine(Chat.PhoneField, phone)
  {
    var p := "Phone";
    assert "Phone: " + phone == p + ":" + ([' '] + phone);
    assert p != "Price" by { assert p[2] != "Price"[2]; }
    Chat.ClassifyLabelled(p, [' '] + phone);
    TrimAfterSpace(phone);
  }

  // ---------------------------------------------------------------------------
  // Reading whole blocks and the whole message
  // ---------------------------------------------------------------------------

  /** Reading one provider's block closes the card in progress and fills a new one with its fields. */
  lemma RunBlock(st: Chat.ParseState, p: Route.Provider)
    requires WellFormed(p)
    ensures Chat.Run(st, Route.BlockLines(p)) == Chat.ParseState(Chat.Flush(st), ToBusiness(p))
  {
    var l := Route.BlockLines(p);
    NameLineRead(p);
    RatingLineRead(p.ratingTenths);
    PriceLineRead(p.price);
    AvailableLineRead(p.availableTime);
    PhoneLineRead(p.phone);
    var s1 := Chat.Step(st, l[0]);
    assert s1 == st;
    var s2 := Chat.Step(s1, l[1]);
    var s3 := Chat.Step(s2, l[2]);
    var s4 := Chat.Step(s3, l[3]);
    var s5 := Chat.Step(s4, l[4]);
    var s6 := Chat.Step(s5, l[5]);
    assert s6 == Chat.ParseState(Chat.Flush(st), ToBusiness(p));
    assert l[5..][1..] == [];
    assert l[4..][1..] == l[5..];
    assert l[3..][1..] == l[4..];
    assert l[2..][1..] == l[3..];
    assert l[1..][1..] == l[2..];
    assert Chat.Run(s5, l[5..]) == s6;
    assert Chat.Run(s4, l[4..]) == s6;
    assert Chat.Run(s3, l[3..]) == s6;
    assert Chat.Run(s2, l[2..]) == s6;
    assert Chat.Run(s1, l[1..]) == s6;
  }

  lemma CardsCons(ps: seq<Route.Provider>)
    requires ps != []
    ensures Cards(ps) == [ToBusiness(ps[0])] + Cards(ps[1..])
  {
  }

  /** The empty line between two blocks changes nothing. */
  lemma SkipSeparator(st: Chat.ParseState, lines: seq<string>)
    ensures Chat.Run(st, [""] + lines) == Chat.Run(st, lines)
  {
    assert ([""] + lines)[1..] == lines;
    assert Chat.Classify("") == Chat.Blank;
  }

  /** Reading the blocks of `ps` after a state adds one card per provider, in order. */
  lemma {:induction false} RunMessageLines(st: Chat.ParseState, ps: seq<Route.Provider>)
    requires ps != []
    requires forall i :: 0 <= i < |ps| ==> WellFormed(ps[i])
    ensures Chat.Flush(Chat.Run(st, MessageLines(ps))) == Chat.Flush(st) + Cards(ps)
    decreases |ps|
  {
    var p := ps[0];
    var next := Chat.ParseState(Chat.Flush(st), ToBusiness(p));
    if |ps| == 1 {
      RunBlock(st, p);
      FlushAfterBlock(st, p);
      assert MessageLines(ps) == Route.BlockLines(p);
      assert Cards(ps) == [ToBusiness(p)];
    } else {
      var rest := ps[1..];
      assert forall i :: 0 <= i < |rest| ==> WellFormed(rest[i]);
      RunMessageLines(next, rest);
      RunTwoBlocks(st, ps);
    }
  }

  /** One step of the induction: the first block, the empty line, then the rest. */
  lemma RunTwoBlocks(st: Chat.ParseState, ps: seq<Route.Provider>)
    requires |ps| > 1 && WellFormed(ps[0])
    requires var next := Chat.ParseState(Chat.Flush(st), ToBusiness(ps[0]));
      Chat.Flush(Chat.Run(next, MessageLines(ps[1..]))) == Chat.Flush(next) + Cards(ps[1..])
    ensures Chat.Flush(Chat.Run(st, MessageLines(ps))) == Chat.Flush(st) + Cards(ps)
  {
    var p := ps[0];
    var next := Chat.ParseState(Chat.Flush(st), ToBusiness(p));
    var rest := MessageLines(ps[1..]);
    var tail := [""] + rest;
    assert MessageLines(ps) == Route.BlockLines(p) + tail;
    RunBlock(st, p);
    Chat.RunAppend(st, Route.BlockLines(p), tail);
    SkipSeparator(next, rest);
    FlushAfterBlock(st, p);
    CardsCons(ps);
  }

  /** The card a block fills is pushed when the next name line or the end comes. */
  lemma FlushAfterBlock(st: Chat.ParseState, p: Route.Provider)
    ensures Chat.Flush(Chat.ParseState(Chat.Flush(st), ToBusiness(p))) == Chat.Flush(st) + [ToBusiness(p)]
  {
    assert ToBusiness(p).name.Some?;
  }

  /** With a provider listed, the parse yields one card per provider. */
  lemma ParseListed(problemType: string, zipCode: string, timing: string, ps: seq<Route.Provider>)
    requires Echoable(problemType) && Echoable(zipCode) && Echoable(timing)
    requires forall i :: 0 <= i < |ps| ==> WellFormed(ps[i])
    requires ps != []
    ensures Chat.Parse(Route.RecommendationMessage(problemType, zipCode, timing, ps)) == Cards(ps)
  {
    var h := Route.Header(problemType, zipCode, timing);
    MessageSplit(problemType, zipCode, timing, ps);
    HeaderIgnored(problemType, zipCode, timing);
    Chat.RunCons(Chat.Start, h, MessageLines(ps));
    Chat.InertStep(Chat.Start, h);
    RunMessageLines(Chat.Start, ps);
  }

  /** With no provider listed, the parse yields no card. */
  lemma ParseUnlisted(problemType: string, zipCode: string, timing: string)
    requires Echoable(problemType) && Echoable(zipCode) && Echoable(timing)
    ensures Chat.Parse(Route.RecommendationMessage(problemType, zipCode, timing, [])) == []
  {
    var h := Route.Header(problemType, zipCode, timing);
    EmptyMessageSplit(problemType, zipCode, timing);
    HeaderIgnored(problemType, zipCode, timing);
    var lines := [h, ""];
    assert lines[1..] == [""];
    assert Chat.Run(Chat.Start, lines) == Chat.Run(Chat.Start, [""]) == Chat.Start;
  }

  /** With no provider listed, the message has no "Rating:", so the gate stays shut. */
  lemma GateShut(problemType: string, zipCode: string, timing: string)
    requires Echoable(problemType) && Echoable(zipCode) && Echoable(timing)
    ensures !Chat.LooksLikeRecommendation(Route.RecommendationMessage(problemType, zipCode, timing, []))
  {
    var h := Route.Header(problemType, zipCode, timing);
    HeaderHasNoLabel(problemType, zipCode, timing);
    assert Route.RecommendationMessage(problemType, zipCode, timing, []) == h + ['\n'] + "";
    NotContainsAcross(h, '\n', "", "Rating:");
  }

  /**
   * The round trip: when the problem type, zip code and timing are plain
   * one-line text, the client's parse of the recommendation message gives
   * one card per listed provider, in order, carrying that provider's name,
   * rendered rating, price, availability and phone. The message passes the
   * client's Rating/Phone gate exactly when some provider is listed, and the
   * cards shown are the same.
   */
  lemma ParseRecommendation(problemType: string, zipCode: string, timing: string,
                            ps: seq<Route.Provider>)
    requires Echoable(problemType) && Echoable(zipCode) && Echoable(timing)
    requires forall i :: 0 <= i < |ps| ==> WellFormed(ps[i])
    ensures var m := Route.RecommendationMessage(problemType, zipCode, timing, ps);
      Chat.Parse(m) == Cards(ps) &&
      (Chat.LooksLikeRecommendation(m) <==> ps != []) &&
      Chat.CardsFor(m) == Cards(ps)
  {
    if ps == [] {
      ParseUnlisted(problemType, zipCode, timing);
      GateShut(problemType, zipCode, timing);
    } else {
      ParseListed(problemType, zipCode, timing, ps);
      GateOpens(problemType, zipCode, timing, ps);
    }
  }

  /** A line that starts with a label contains it. */
  lemma StartsWithLabel(tag: string, rest: string)
    ensures Contains(tag + rest, tag)
  {
    ContainsSelf(tag);
    ContainsInPrefix(tag, rest, tag);
  }

  /** Each line of the first block occurs in the message. */
  lemma FirstBlockLineOccurs(problemType: string, zipCode: string, timing: string,
                             ps: seq<Route.Provider>, k: nat)
    requires ps != [] && k < 6
    ensures Contains(Route.RecommendationMessage(problemType, zipCode, timing, ps), Route.BlockLines(ps[0])[k])
  {
    var lines := [Route.Header(problemType, zipCode, timing)] + MessageLines(ps);
    MessageJoin(problemType, zipCode, timing, ps);
    MessageLinesStart(ps);
    assert lines[k + 1] == MessageLines(ps)[..6][k];
    JoinPartOccurs(lines, "\n", k + 1);
  }

  /** A block's rating line carries "Rating:" and its phone line "Phone:". */
  lemma BlockLabelsOccur(p: Route.Provider)
    ensures Contains(Route.BlockLines(p)[2], "Rating:") && Contains(Route.BlockLines(p)[5], "Phone:")
  {
    var b := Route.BlockLines(p);
    var r := Route.RatingText(p.ratingTenths);
    assert b[2] == "Rating:" + (" " + r + "/5");
    assert b[5] == "Phone:" + (" " + p.phone);
    StartsWithLabel("Rating:", " " + r + "/5");
    StartsWithLabel("Phone:", " " + p.phone);
  }

  /** A message that lists a provider carries both "Rating:" and "Phone:". */
  lemma GateOpens(problemType: string, zipCode: string, timing: string, ps: seq<Route.Provider>)
    requires ps != []
    ensures Chat.LooksLikeRecommendation(Route.RecommendationMessage(problemType, zipCode, timing, ps))
  {
    var m := Route.RecommendationMessage(problemType, zipCode, timing, ps);
    var b := Route.BlockLines(ps[0]);
    FirstBlockLineOccurs(problemType, zipCode, timing, ps, 2);
    FirstBlockLineOccurs(problemType, zipCode, timing, ps, 5);
    BlockLabelsOccur(ps[0]);
    ContainsTransitive(m, b[2], "Rating:");
    ContainsTransitive(m, b[5], "Phone:");
  }

  /**
   * End to end: when the endpoint recommends, the cards the client shows are
   * the selected providers in directory order, and there is a card exactly
   * when some directory provider matches the problem type.
   */
  lemma RecommendationCards(a: Route.Analysis)
    requires Route.Present(a.problemType) && Route.Present(a.zipCode) && Route.Present(a.timing)
    requires Echoable(a.problemType.value) && Echoable(a.zipCode.value) && Echoable(a.timing.value)
    ensures Route.Respond(a).Recommend?
    ensures var pt := a.problemType.value;
      var cards := Chat.CardsFor(Route.Respond(a).message);
      cards == Cards(Route.Select(pt)) &&
      (cards != [] <==> exists i :: 0 <= i < 3 && Route.Matches(Route.Directory()[i], pt))
  {
    var pt := a.problemType.value;
    var sel := Route.Select(pt);
    var d := Route.Directory();
    Route.SelectIsFilter(pt);
    DirectoryWellFormed();
    forall i | 0 <= i < |sel| ensures WellFormed(sel[i]) {
      assert sel[i] in d;
    }
    ParseRecommendation(pt, a.zipCode.value, a.timing.value, sel);
    if sel != [] {
      assert sel[0] in d;
    }
    if exists i :: 0 <= i < 3 && Route.Matches(d[i], pt) {
      var i :| 0 <= i < 3 && Route.Matches(d[i], pt);
      assert d[i] in sel;
    }
  }
}
