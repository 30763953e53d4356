/**
 * The server half of the chat endpoint (app/api/chat/route.ts): the fixed
 * provider directory, the choice between recommending and asking the next
 * scripted question, the keyword filter with its cut-off at three providers,
 * and the text template the recommendation is sent back in.
 */
module Route {
  import opened Wrappers
  import opened Text

  /** A directory record. The rating is kept as a whole number of tenths (4.8 is 48). */
  datatype Provider = Provider(
    name: string,
    ratingTenths: nat,
    price: string,
    availableTime: string,
    phone: string,
    services: seq<string>)

  /** The three fixed records, in directory order. */
  function Directory(): (d: seq<Provider>)
    ensures |d| == 3
    ensures forall i :: 0 <= i < |d| ==> d[i].ratingTenths <= 50
  {
    [ Provider("Quick Fix Appliances", 48, "$80-120", "Today, 2-4 PM", "(555) 123-4567",
               ["washer", "dryer", "dishwasher", "refrigerator"]),
      Provider("Pro Appliance Repair", 46, "$70-100", "Tomorrow, 9-11 AM", "(555) 234-5678",
               ["washer", "dryer", "stove", "oven"]),
      Provider("Expert Home Services", 49, "$90-130", "Today, 5-7 PM", "(555) 345-6789",
               ["washer", "dryer", "dishwasher", "refrigerator", "stove"]) ]
  }

  // ---------------------------------------------------------------------------
  // Rendering a rating the way JavaScript renders a one-decimal number
  // ---------------------------------------------------------------------------

  predicate IsDigit(c: char) { '0' <= c <= '9' }

  function Digit(n: nat): (c: char)
    requires n < 10
    ensures IsDigit(c)
  {
    ('0' as int + n) as char
  }

  function DigitValue(c: char): nat
    requires IsDigit(c)
  {
    c as int - '0' as int
  }

  /** The decimal numeral of `n`, without leading zeros. */
  function NatText(n: nat): (r: string)
    ensures r != []
    ensures forall i :: 0 <= i < |r| ==> IsDigit(r[i])
  {
    if n < 10 then [Digit(n)] else NatText(n / 10) + [Digit(n % 10)]
  }

  /** The number a string of decimal digits denotes. */
  function NatValue(s: string): nat
    requires forall i :: 0 <= i < |s| ==> IsDigit(s[i])
  {
    if s == [] then 0 else NatValue(s[..|s| - 1]) * 10 + DigitValue(s[|s| - 1])
  }

  /** Reading back a numeral gives the number it was written from. */
  lemma {:induction false} NatTextValue(n: nat)
    ensures NatValue(NatText(n)) == n
  {
    if n >= 10 {
      var s := NatText(n);
      assert s[..|s| - 1] == NatText(n / 10);
      NatTextValue(n / 10);
    }
  }

  /**
   * `${rating}` for a rating of `tenths`/10: the whole part, then a point and
   * the tenths digit unless that digit is zero (5.0 renders as "5").
   */
  function RatingText(tenths: nat): (r: string)
    ensures r != [] && IsDigit(r[0]) && IsDigit(r[|r| - 1])
    ensures forall i :: 0 <= i < |r| ==> IsDigit(r[i]) || r[i] == '.'
    ensures '.' in r <==> tenths % 10 != 0
  {
    var whole := NatText(tenths / 10);
    if tenths % 10 == 0 then whole else whole + "." + [Digit(tenths % 10)]
  }

  /** The rendered rating reads back as the same whole part and tenths digit. */
  lemma RatingTextValue(tenths: nat)
    ensures var parts := Split(RatingText(tenths), '.');
      (forall i :: 0 <= i < |parts[0]| ==> IsDigit(parts[0][i])) &&
      NatValue(parts[0]) == tenths / 10 &&
      (|parts| == 1 <==> tenths % 10 == 0) &&
      (|parts| == 2 ==> parts[1] == [Digit(tenths % 10)]) &&
      |parts| <= 2
  {
    var whole := NatText(tenths / 10);
    NatTextValue(tenths / 10);
    assert '.' !in whole by {
      forall i | 0 <= i < |whole| ensures whole[i] != '.' { assert IsDigit(whole[i]); }
    }
    if tenths % 10 != 0 {
      var d := [Digit(tenths % 10)];
      assert RatingText(tenths) == whole + ['.'] + d;
      SplitAppend(whole, '.', d);
    }
  }

  // ---------------------------------------------------------------------------
  // Choosing providers
  // ---------------------------------------------------------------------------

  /** Some service tag of `p` occurs in the lower-cased problem type. */
  predicate Matches(p: Provider, problemType: string) {
    exists i :: 0 <= i < |p.services| && Contains(ToLower(problemType), p.services[i])
  }

  /** `a` is `b` with some elements left out and the rest in their order. */
  predicate IsSubsequence<T(==)>(a: seq<T>, b: seq<T>)
    decreases |b|
  {
    if a == [] then true
    else if b == [] then false
    else if a[0] == b[0] then IsSubsequence(a[1..], b[1..])
    else IsSubsequence(a, b[1..])
  }

  lemma {:induction false} SubsequenceLength<T>(a: seq<T>, b: seq<T>)
    requires IsSubsequence(a, b)
    ensures |a| <= |b|
    decreases |b|
  {
    if a != [] {
      if a[0] == b[0] { SubsequenceLength(a[1..], b[1..]); } else { SubsequenceLength(a, b[1..]); }
    }
  }

  /** The `filter` step: the providers that match, in the order given. */
  function FilterMatching(ps: seq<Provider>, problemType: string): (r: seq<Provider>)
    ensures forall p :: p in r <==> p in ps && Matches(p, problemType)
    ensures IsSubsequence(r, ps)
  {
    if ps == [] then []
    else
      var rest := FilterMatching(ps[1..], problemType);
      if Matches(ps[0], problemType) then [ps[0]] + rest else rest
  }

  /** `filter(...).slice(0, 3)` over the directory. */
  function Select(problemType: string): (r: seq<Provider>)
    ensures |r| <= 3
    ensures r <= FilterMatching(Directory(), problemType)
  {
    var all := FilterMatching(Directory(), problemType);
    if |all| <= 3 then all else all[..3]
  }

  /**
   * With a three-record directory the cut-off at three never removes a match:
   * a provider is selected exactly when it is in the directory and matches.
   */
  lemma {:induction false} SelectIsFilter(problemType: string)
    ensures Select(problemType) == FilterMatching(Directory(), problemType)
    ensures forall p :: p in Select(problemType) <==> p in Directory() && Matches(p, problemType)
    ensures IsSubsequence(Select(problemType), Directory())
  {
    SubsequenceLength(FilterMatching(Directory(), problemType), Directory());
  }

  // ---------------------------------------------------------------------------
  // The recommendation text
  // ---------------------------------------------------------------------------

  /** The header sentence, which ends in a colon. */
  function Header(problemType: string, zipCode: string, timing: string): string {
    "Based on your " + problemType + " issue in " + zipCode + " for " + timing
      + ", here are the best service providers I found:"
  }

  /** The lines of one provider's block: a blank line, its name, then four labelled lines. */
  function BlockLines(p: Provider): (r: seq<string>)
    ensures |r| == 6 && r[0] == "" && r[1] == p.name
  {
    [ "",
      p.name,
      "Rating: " + RatingText(p.ratingTenths) + "/5",
      "Estimated Price: " + p.price,
      "Available: " + p.availableTime,
      "Phone: " + p.phone ]
  }

  /** The block one provider contributes: its lines joined by newlines. */
  function Block(p: Provider): string {
    Join(BlockLines(p), "\n")
  }

  /** `map(Block)`: one block per provider, in order. */
  function Blocks(ps: seq<Provider>): (r: seq<string>)
    ensures |r| == |ps|
  {
    seq(|ps|, i requires 0 <= i < |ps| => Block(ps[i]))
  }

  /** `map(Block).join("\n\n")`. */
  function JoinBlocks(ps: seq<Provider>): (r: string)
    ensures ps == [] <==> r == []
  {
    var blocks := Blocks(ps);
    assert ps != [] ==> blocks[0] != [];
    Join(blocks, "\n\n")
  }

  /** The header, a newline, then the joined blocks. */
  function RecommendationMessage(problemType: string, zipCode: string, timing: string,
                                 ps: seq<Provider>): (r: string)
    ensures Header(problemType, zipCode, timing) + "\n" <= r
    ensures ps == [] <==> r == Header(problemType, zipCode, timing) + "\n"
  {
    Header(problemType, zipCode, timing) + "\n" + JoinBlocks(ps)
  }

  /** Each line of each provider's block occurs in the message. */
  lemma BlockLineOccurs(problemType: string, zipCode: string, timing: string,
                        ps: seq<Provider>, k: nat, j: nat)
    requires k < |ps| && j < 6
    ensures Contains(RecommendationMessage(problemType, zipCode, timing, ps), BlockLines(ps[k])[j])
  {
    var blocks := Blocks(ps);
    var m := RecommendationMessage(problemType, zipCode, timing, ps);
    JoinPartOccurs(blocks, "\n\n", k);
    ContainsInSuffix(Header(problemType, zipCode, timing) + "\n", JoinBlocks(ps), Block(ps[k]));
    JoinPartOccurs(BlockLines(ps[k]), "\n", j);
    ContainsTransitive(m, Block(ps[k]), BlockLines(ps[k])[j]);
  }

  /**
   * Every listed provider's name, price and phone appear verbatim in the
   * message, as do its availability and rating.
   */
  lemma MessageNamesProviders(problemType: string, zipCode: string, timing: string,
                              ps: seq<Provider>, k: nat)
    requires k < |ps|
    ensures var m := RecommendationMessage(problemType, zipCode, timing, ps);
      Contains(m, ps[k].name) && Contains(m, ps[k].price) && Contains(m, ps[k].phone) &&
      Contains(m, ps[k].availableTime) && Contains(m, "Rating: " + RatingText(ps[k].ratingTenths) + "/5")
  {
    var p := ps[k];
    var m := RecommendationMessage(problemType, zipCode, timing, ps);
    var lines := BlockLines(p);
    BlockLineOccurs(problemType, zipCode, timing, ps, k, 1);
    BlockLineOccurs(problemType, zipCode, timing, ps, k, 2);
    BlockLineOccurs(problemType, zipCode, timing, ps, k, 3);
    BlockLineOccurs(problemType, zipCode, timing, ps, k, 4);
    BlockLineOccurs(problemType, zipCode, timing, ps, k, 5);
    ContainsEnd("Estimated Price: ", p.price);
    ContainsTransitive(m, lines[3], p.price);
    ContainsEnd("Available: ", p.availableTime);
    ContainsTransitive(m, lines[4], p.availableTime);
    ContainsEnd("Phone: ", p.phone);
    ContainsTransitive(m, lines[5], p.phone);
  }

  // ---------------------------------------------------------------------------
  // Deciding between recommending and asking the next question
  // ---------------------------------------------------------------------------

  datatype Stage = Initial | Details | Location | Timing | Recommendation

  /** The classifier's verdict on the conversation so far; each field may be absent. */
  datatype Analysis = Analysis(
    stage: Stage,
    needsZipCode: bool,
    needsTiming: bool,
    problemType: Option<string>,
    zipCode: Option<string>,
    timing: Option<string>)

  /** What the endpoint answers with: a recommendation, or a scripted question for `stage`. */
  datatype Outcome = Recommend(message: string) | AskNextQuestion(stage: Stage)

  /** A JavaScript string field is truthy when it is present and not empty. */
  predicate Present(field: Option<string>) {
    field.Some? && field.value != ""
  }

  /**
   * The endpoint's branch: recommend when problem type, zip code and timing
   * are all present, otherwise ask the next question for the classified stage.
   */
  function Respond(a: Analysis): (r: Outcome)
    ensures r.Recommend? <==> Present(a.zipCode) && Present(a.timing) && Present(a.problemType)
    ensures r.AskNextQuestion? ==> r.stage == a.stage
    ensures r.Recommend? ==>
      var pt := a.problemType.value;
      r.message == RecommendationMessage(pt, a.zipCode.value, a.timing.value, Select(pt))
  {
    if Present(a.zipCode) && Present(a.timing) && Present(a.problemType) then
      var pt := a.problemType.value;
      Recommend(RecommendationMessage(pt, a.zipCode.value, a.timing.value, Select(pt)))
    else
      AskNextQuestion(a.stage)
  }
}
