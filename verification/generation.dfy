/**
 `generateAITweet`: the template-based text generator. A topic and a template are
 drawn at random, the template's `{topic}` and its phrase placeholder are filled in
 from per-topic tables (with a fixed default phrase per placeholder), hashtags are
 appended, and the text is cut to `maxLength` with a trailing `...`.
 The two random draws are the parameters `topicPick` and `templatePick`.
 */
module Generation {
  import opened Wrappers
  import opened JsText
  import opened Documents

  /** The phrase placeholders, in the order the code substitutes them. */
  datatype Slot =
    | FunnyObservation
    | RelatableSituation
    | WittyInsight
    | FunnyRealization
    | RelatableProblem
    | TechnicalObservation
    | FunnyBehavior
    | TechnicalComparison

  const SlotOrder: seq<Slot> := [
    FunnyObservation, RelatableSituation, WittyInsight, FunnyRealization,
    RelatableProblem, TechnicalObservation, FunnyBehavior, TechnicalComparison]

  function Name(s: Slot): string {
    match s
    case FunnyObservation => "funny_observation"
    case RelatableSituation => "relatable_situation"
    case WittyInsight => "witty_insight"
    case FunnyRealization => "funny_realization"
    case RelatableProblem => "relatable_problem"
    case TechnicalObservation => "technical_observation"
    case FunnyBehavior => "funny_behavior"
    case TechnicalComparison => "technical_comparison"
  }

  function Placeholder(s: Slot): string {
    "{" + Name(s) + "}"
  }

  const TopicPlaceholder := "{topic}"

  /**
   A template is `lead {topic} middle {slot} tail`; every one of the eight has
   exactly this shape. Astral-plane emoji are written as one character here.
   */
  datatype Template = Template(lead: string, middle: string, slot: Slot, tail: string)

  function TemplateText(t: Template): string {
    t.lead + TopicPlaceholder + t.middle + Placeholder(t.slot) + t.tail
  }

  const Discovered: Template := Template("Just discovered that ", " is actually ", FunnyObservation, ". Mind = blown \U{1F92F}")
  const RealProblem: Template := Template("The real ", " problem is ", RelatableSituation, ". Can anyone else relate? \U{1F605}")
  const Lesson: Template := Template("Today's ", " lesson: ", WittyInsight, ". Life is full of surprises! \U{2728}")
  const PlotTwist: Template := Template("Plot twist: ", " is not what we thought. ", FunnyRealization, " \U{1F602}")
  const Struggle: Template := Template("The ", " struggle is real when ", RelatableProblem, ". Anyone else? \U{1F64B}\U{200D}\U{2642}\U{FE0F}")
  const YourModel: Template := Template("When your ", " model ", TechnicalObservation, " \U{1F4CA}")
  const Algorithm: Template := Template("The ", " algorithm that ", FunnyBehavior, " \U{1F9E0}")
  const Implementation: Template := Template("My ", " implementation is ", TechnicalComparison, " \U{1F4C8}")

  /** The eight templates, in the order of the `templates` array. */
  const Templates: seq<Template> := [
    Discovered, RealProblem, Lesson, PlotTwist, Struggle, YourModel, Algorithm, Implementation]

  /** The topics used when the configuration has no `topics` key. */
  const DefaultTopics: seq<string> := ["AI", "MachineLearning", "QuantFinance", "Trading"]

  function TopicsOf(c: Config): seq<string> {
    c.topics.GetOr(DefaultTopics)
  }

  /** The eight topics every per-topic table has an entry for. */
  datatype KnownTopic =
    | AI
    | MachineLearning
    | QuantFinance
    | Trading
    | DataScience
    | DeepLearning
    | Quantitative
    | Programming

  function TopicName(t: KnownTopic): string {
    match t
    case AI => "AI"
    case MachineLearning => "MachineLearning"
    case QuantFinance => "QuantFinance"
    case Trading => "Trading"
    case DataScience => "DataScience"
    case DeepLearning => "DeepLearning"
    case Quantitative => "Quantitative"
    case Programming => "Programming"
  }

  /** The table key a topic string hits, if any (an own-property lookup `table[topic]`). */
  function Recognize(topic: string): Option<KnownTopic> {
    if topic == "AI" then Some(AI)
    else if topic == "MachineLearning" then Some(MachineLearning)
    else if topic == "QuantFinance" then Some(QuantFinance)
    else if topic == "Trading" then Some(Trading)
    else if topic == "DataScience" then Some(DataScience)
    else if topic == "DeepLearning" then Some(DeepLearning)
    else if topic == "Quantitative" then Some(Quantitative)
    else if topic == "Programming" then Some(Programming)
    else None
  }

  /** A topic is recognised exactly when it is one of the eight table keys. */
  lemma RecognizeNames(topic: string)
    ensures forall t :: topic == TopicName(t) ==> Recognize(topic) == Some(t)
    ensures (forall t :: topic != TopicName(t)) ==> Recognize(topic) == None
  {
    assert TopicName(AI) == "AI" && TopicName(MachineLearning) == "MachineLearning";
    assert TopicName(QuantFinance) == "QuantFinance" && TopicName(Trading) == "Trading";
    assert TopicName(DataScience) == "DataScience" && TopicName(DeepLearning) == "DeepLearning";
    assert TopicName(Quantitative) == "Quantitative" && TopicName(Programming) == "Programming";
  }

  /** The per-topic phrase tables, one per placeholder. */
  function Entry(s: Slot, t: KnownTopic): string {
    match s
    case FunnyObservation => (
      match t
      case AI => "more complex than my dating algorithm"
      case MachineLearning => "converging faster than my career goals"
      case QuantFinance => "generating more alpha than my social skills"
      case Trading => "more volatile than my attention span"
      case DataScience => "preprocessing more data than my life decisions"
      case DeepLearning => "deeper than my understanding of taxes"
      case Quantitative => "more quantitative than my dating prospects"
      case Programming => "debugging more bugs than my life choices"
    )
    case RelatableSituation => (
      match t
      case AI => "your neural network overfits more than your dating profile"
      case MachineLearning => "your model predicts market crashes better than your life"
      case QuantFinance => "your Sharpe ratio is higher than your social skills"
      case Trading => "your backtest results are more impressive than your LinkedIn"
      case DataScience => "your feature engineering is better than your cooking"
      case DeepLearning => "your gradient descent is smoother than your dating life"
      case Quantitative => "your risk management is better than your life management"
      case Programming => "your code is more efficient than your morning routine"
    )
    case WittyInsight => (
      match t
      case AI => "sometimes the best feature is the off button"
      case MachineLearning => "the best models are the ones you never deploy"
      case QuantFinance => "the real alpha is in the data preprocessing"
      case Trading => "the market is efficient, but your code is not"
      case DataScience => "feature importance reveals more than therapy"
      case DeepLearning => "neural networks are just fancy regression"
      case Quantitative => "cross-validation prevents overfitting your heart"
      case Programming => "the best code is the code you don't write"
    )
    case FunnyRealization => (
      match t
      case AI => "we're all just training on biased data"
      case MachineLearning => "your model is only as good as your data"
      case QuantFinance => "the market is more random than your code"
      case Trading => "your strategy works until it doesn't"
      case DataScience => "correlation doesn't imply causation, but it's fun to pretend"
      case DeepLearning => "deep learning is just statistics with better marketing"
      case Quantitative => "quantitative finance is just applied statistics"
      case Programming => "programming is just debugging with extra steps"
    )
    case RelatableProblem => (
      match t
      case AI => "your model works in production but not in your life"
      case MachineLearning => "your predictions are better than your life choices"
      case QuantFinance => "your portfolio outperforms your dating life"
      case Trading => "your algorithm trades better than you date"
      case DataScience => "your data pipeline is cleaner than your room"
      case DeepLearning => "your neural network learns faster than you do"
      case Quantitative => "your models are more sophisticated than your conversations"
      case Programming => "your code is more organized than your thoughts"
    )
    case TechnicalObservation => (
      match t
      case AI => "converges faster than my dating algorithm"
      case MachineLearning => "overfits more than my dating profile"
      case QuantFinance => "generates more alpha than my social skills"
      case Trading => "backtests better than my life decisions"
      case DataScience => "preprocesses data better than my life"
      case DeepLearning => "learns patterns faster than I learn from mistakes"
      case Quantitative => "calculates risk better than I assess situations"
      case Programming => "debugs faster than I solve problems"
    )
    case FunnyBehavior => (
      match t
      case AI => "hallucinates more than my dating stories"
      case MachineLearning => "overfits more than my dating profile"
      case QuantFinance => "generates more alpha than my social skills"
      case Trading => "trades more than I date"
      case DataScience => "cleans data better than I clean my room"
      case DeepLearning => "learns deeper than my understanding of taxes"
      case Quantitative => "calculates more than I think"
      case Programming => "loops more than my dating conversations"
    )
    case TechnicalComparison => (
      match t
      case AI => "more sophisticated than my dating algorithm"
      case MachineLearning => "more accurate than my life predictions"
      case QuantFinance => "more profitable than my dating life"
      case Trading => "more successful than my relationships"
      case DataScience => "more organized than my thoughts"
      case DeepLearning => "deeper than my understanding of relationships"
      case Quantitative => "more precise than my life calculations"
      case Programming => "more logical than my decision making"
    )
  }

  /** The phrase used when the topic has no entry in the placeholder's table. */
  function DefaultPhrase(s: Slot): string {
    match s
    case FunnyObservation => "surprisingly complex"
    case RelatableSituation => "reality hits hard"
    case WittyInsight => "life is what happens while you're making other plans"
    case FunnyRealization => "we're all just winging it"
    case RelatableProblem => "things don't go as planned"
    case TechnicalObservation => "behaves unexpectedly"
    case FunnyBehavior => "does weird things"
    case TechnicalComparison => "more advanced than expected"
  }

  /** `table[topic] || default`; every table entry is a non-empty string. */
  function Phrase(s: Slot, topic: string): (r: string)
    ensures forall t :: topic == TopicName(t) ==> r == Entry(s, t)
    ensures (forall t :: topic != TopicName(t)) ==> r == DefaultPhrase(s)
  {
    RecognizeNames(topic);
    match Recognize(topic)
    case Some(t) => Entry(s, t)
    case None => DefaultPhrase(s)
  }

  /** The chained `.replace(placeholder, phrase)` calls, one per slot in order. */
  function FillSlots(text: string, topic: string, slots: seq<Slot>): string
    decreases |slots|
  {
    if |slots| == 0 then text
    else FillSlots(ReplaceFirst(text, Placeholder(slots[0]), Phrase(slots[0], topic)), topic, slots[1..])
  }

  function FillTemplate(text: string, topic: string): string {
    FillSlots(ReplaceFirst(text, TopicPlaceholder, topic), topic, SlotOrder)
  }

  /** The per-topic hashtag lists, or `[#topic, #Tech, #AI]` for an unknown topic. */
  function Hashtags(topic: string): (r: seq<string>)
    ensures |r| == 3
  {
    match Recognize(topic)
    case Some(t) => KnownHashtags(t)
    case None => ["#" + topic, "#Tech", "#AI"]
  }

  function KnownHashtags(t: KnownTopic): (r: seq<string>)
    ensures |r| == 3
  {
    match t
    case AI => ["#AI", "#MachineLearning", "#Tech"]
    case MachineLearning => ["#ML", "#DataScience", "#AI"]
    case QuantFinance => ["#QuantFinance", "#Trading", "#Finance"]
    case Trading => ["#Trading", "#Quantitative", "#Finance"]
    case DataScience => ["#DataScience", "#ML", "#Analytics"]
    case DeepLearning => ["#DeepLearning", "#AI", "#NeuralNetworks"]
    case Quantitative => ["#Quantitative", "#Finance", "#Trading"]
    case Programming => ["#Programming", "#Tech", "#Coding"]
  }

  /** `hashtagCount || 3`: a count of 0 is falsy and becomes 3. */
  function EffectiveCount(n: int): int {
    if n == 0 then 3 else n
  }

  /** `' ' + hashtags.slice(0, count).join(' ')`. */
  function HashtagSuffix(topic: string, n: int): (r: string)
    ensures |r| >= 1 && r[0] == ' '
    ensures n == 0 || n >= 3 ==> r == " " + Join(Hashtags(topic), " ")
    ensures n <= -3 ==> r == " "
  {
    var tags := Hashtags(topic);
    assert EffectiveCount(n) >= 3 ==> SliceTo(tags, EffectiveCount(n)) == tags;
    " " + Join(SliceTo(tags, EffectiveCount(n)), " ")
  }

  /** `tweet.substring(0, maxLength - 3) + '...'` when the text is too long. */
  function Truncate(text: string, maxLength: int): (r: string)
    ensures maxLength >= 3 ==> |r| <= maxLength
  {
    if |text| > maxLength then Substring(text, maxLength - 3) + "..." else text
  }

  /** The text before the length limit is applied. */
  function Compose(c: Config, topic: string, t: Template): string {
    FillTemplate(TemplateText(t), topic) + (if c.includeHashtags then HashtagSuffix(topic, c.hashtagCount) else "")
  }

  /** The random draws are in range for the configuration that will be read. */
  predicate DrawFits(config: Option<Config>, topicPick: nat, templatePick: nat) {
    config.Some? && config.value.enabled ==>
      topicPick < |TopicsOf(config.value)| && templatePick < |Templates|
  }

  /**
   `generateAITweet`: None when the configuration cannot be read or generation is
   disabled; otherwise the filled template with hashtags, within `maxLength`.
   */
  function GenerateAITweet(config: Option<Config>, topicPick: nat, templatePick: nat): (r: Option<string>)
    requires DrawFits(config, topicPick, templatePick)
    ensures r.None? <==> config.None? || !config.value.enabled
    ensures r.Some? && config.value.maxLength >= 3 ==> |r.value| <= config.value.maxLength
  {
    if config.None? || !config.value.enabled then None
    else
      var c := config.value;
      var text := Compose(c, TopicsOf(c)[topicPick], Templates[templatePick]);
      Some(Truncate(text, c.maxLength))
  }

  /**
   The length limit: a text that fits is kept; a longer one becomes its first
   `maxLength - 3` units and `...`, exactly `maxLength` long. Below a limit of 3 the
   code still produces `...`, which is longer than the limit.
   */
  lemma TruncateSpec(text: string, maxLength: int)
    ensures |text| <= maxLength ==> Truncate(text, maxLength) == text
    ensures |text| > maxLength && maxLength >= 3 ==>
              && |Truncate(text, maxLength)| == maxLength
              && Truncate(text, maxLength) == text[..maxLength - 3] + "..."
    ensures |text| > maxLength && maxLength < 3 ==> Truncate(text, maxLength) == "..."
  {
  }

  /** How many hashtags are appended, following `slice(0, n || 3)` on a three-tag list. */
  function TagsTaken(n: int): nat {
    if n == 0 then 3 else if n > 3 then 3 else if n > 0 then n else if n >= -3 then 3 + n else 0
  }

  /**
   The hashtag suffix is a space and the first `TagsTaken(n)` tags of the topic's
   list joined by spaces; a count of 0 behaves exactly like 3, and a negative count
   drops tags from the end.
   */
  lemma HashtagSuffixSpec(topic: string, n: int)
    ensures HashtagSuffix(topic, n) == " " + Join(Hashtags(topic)[..TagsTaken(n)], " ")
    ensures HashtagSuffix(topic, 0) == HashtagSuffix(topic, 3)
  {
    var tags := Hashtags(topic);
    assert SliceTo(tags, EffectiveCount(n)) == tags[..TagsTaken(n)];
  }

  lemma KnownHashtagsHaveNoSpace(t: KnownTopic, k: nat)
    requires k < |KnownHashtags(t)|
    ensures ' ' !in KnownHashtags(t)[k]
  {
    match t
    case AI =>
    case MachineLearning =>
    case QuantFinance =>
    case Trading =>
    case DataScience =>
    case DeepLearning =>
    case Quantitative =>
    case Programming =>
  }

  /** For a topic without spaces the suffix splits back into exactly the chosen tags. */
  lemma HashtagSuffixSplits(topic: string, n: int)
    requires ' ' !in topic
    requires TagsTaken(n) > 0
    ensures Split(HashtagSuffix(topic, n)[1..], ' ') == Hashtags(topic)[..TagsTaken(n)]
  {
    HashtagSuffixSpec(topic, n);
    var tags := Hashtags(topic)[..TagsTaken(n)];
    forall k | 0 <= k < |tags| ensures ' ' !in tags[k] {
      match Recognize(topic)
      case Some(t) => KnownHashtagsHaveNoSpace(t, k);
      case None => assert tags[k] in ["#" + topic, "#Tech", "#AI"];
    }
    SplitJoin(tags, ' ');
  }

  // ----- Placeholder substitution -----

  /** Text that a replacement inserts verbatim and that opens no placeholder. */
  predicate Plain(s: string) {
    '{' !in s && '$' !in s
  }

  lemma NamesAreBraceFree(s: Slot)
    ensures BraceFree(Name(s))
  {
    match s
    case FunnyObservation => assert BraceFree("funny_observation");
    case RelatableSituation => assert BraceFree("relatable_situation");
    case WittyInsight => assert BraceFree("witty_insight");
    case FunnyRealization => assert BraceFree("funny_realization");
    case RelatableProblem => assert BraceFree("relatable_problem");
    case TechnicalObservation => assert BraceFree("technical_observation");
    case FunnyBehavior => assert BraceFree("funny_behavior");
    case TechnicalComparison => assert BraceFree("technical_comparison");
  }

  lemma NamesAreDistinct(x: Slot, y: Slot)
    requires x != y
    ensures Name(x) != Name(y)
  {
  }

  lemma DiscoveredIsBraceFree() ensures TemplateBraceFree(Discovered) {
    assert Discovered.lead == "Just discovered that " && Discovered.middle == " is actually " && Discovered.tail == ". Mind = blown \U{1F92F}";
  }
  lemma RealProblemIsBraceFree() ensures TemplateBraceFree(RealProblem) {
    assert RealProblem.lead == "The real " && RealProblem.middle == " problem is " && RealProblem.tail == ". Can anyone else relate? \U{1F605}";
  }
  lemma LessonIsBraceFree() ensures TemplateBraceFree(Lesson) {
    assert Lesson.lead == "Today's " && Lesson.middle == " lesson: " && Lesson.tail == ". Life is full of surprises! \U{2728}";
  }
  lemma PlotTwistIsBraceFree() ensures TemplateBraceFree(PlotTwist) {
    assert PlotTwist.lead == "Plot twist: " && PlotTwist.middle == " is not what we thought. " && PlotTwist.tail == " \U{1F602}";
  }
  lemma StruggleIsBraceFree() ensures TemplateBraceFree(Struggle) {
    assert Struggle.lead == "The " && Struggle.middle == " struggle is real when " && Struggle.tail == ". Anyone else? \U{1F64B}\U{200D}\U{2642}\U{FE0F}";
  }
  lemma YourModelIsBraceFree() ensures TemplateBraceFree(YourModel) {
    assert YourModel.lead == "When your " && YourModel.middle == " model " && YourModel.tail == " \U{1F4CA}";
  }
  lemma AlgorithmIsBraceFree() ensures TemplateBraceFree(Algorithm) {
    assert Algorithm.lead == "The " && Algorithm.middle == " algorithm that " && Algorithm.tail == " \U{1F9E0}";
  }
  lemma ImplementationIsBraceFree() ensures TemplateBraceFree(Implementation) {
    assert Implementation.lead == "My " && Implementation.middle == " implementation is " && Implementation.tail == " \U{1F4C8}";
  }

  predicate TemplateBraceFree(t: Template) {
    '{' !in t.lead && '{' !in t.middle && '{' !in t.tail
  }

  /** Every template's fixed text is free of `{`: its only placeholders are the two named ones. */
  lemma TemplatesAreBraceFree(k: nat)
    requires k < |Templates|
    ensures TemplateBraceFree(Templates[k])
  {
    if k == 0 { DiscoveredIsBraceFree(); }
    else if k == 1 { RealProblemIsBraceFree(); }
    else if k == 2 { LessonIsBraceFree(); }
    else if k == 3 { PlotTwistIsBraceFree(); }
    else if k == 4 { StruggleIsBraceFree(); }
    else if k == 5 { YourModelIsBraceFree(); }
    else if k == 6 { AlgorithmIsBraceFree(); }
    else { ImplementationIsBraceFree(); }
  }

  /** A placeholder's only braces are its first and last units. */
  lemma PlaceholderShape(s: Slot)
    ensures |Placeholder(s)| >= 2
    ensures Placeholder(s)[0] == '{' && Placeholder(s)[|Placeholder(s)| - 1] == '}'
    ensures forall k :: 0 < k < |Placeholder(s)| ==> Placeholder(s)[k] != '{'
    ensures forall k :: 0 <= k < |Placeholder(s)| - 1 ==> Placeholder(s)[k] != '}'
  {
    NamesAreBraceFree(s);
    var p := Placeholder(s);
    forall k | 0 < k < |p| - 1 ensures p[k] == Name(s)[k - 1] {
    }
  }

  /** Different slots have different placeholders. */
  lemma PlaceholderInjective(x: Slot, y: Slot)
    requires x != y
    ensures Placeholder(x) != Placeholder(y)
  {
    NamesAreDistinct(x, y);
    assert Placeholder(x)[1..|Placeholder(x)| - 1] == Name(x);
    assert Placeholder(y)[1..|Placeholder(y)| - 1] == Name(y);
  }

  /** No placeholder is a prefix of a different one. */
  lemma PlaceholdersPrefixFree(x: Slot, y: Slot, rest: string)
    requires x != y
    ensures !(Placeholder(x) <= Placeholder(y) + rest)
  {
    PlaceholderShape(x);
    PlaceholderShape(y);
    var px, py := Placeholder(x), Placeholder(y);
    var q := py + rest;
    if |px| <= |q| {
      var k: nat;
      if |px| < |py| {
        k := |px| - 1;
        assert q[k] == py[k];
      } else if |px| > |py| {
        k := |py| - 1;
        assert q[k] == '}';
      } else {
        assert q[..|px|] == py;
        PlaceholderInjective(x, y);
        var i :| 0 <= i < |px| && px[i] != q[i];
        k := i;
      }
      assert px[k] != q[k];
    }
  }

  /** A placeholder does not occur in text whose only `{` opens a different placeholder. */
  lemma OtherPlaceholderAbsent(pre: string, y: Slot, post: string, x: Slot)
    requires '{' !in pre && '{' !in post && x != y
    ensures forall j :: !OccursAt(pre + Placeholder(y) + post, Placeholder(x), j)
  {
    PlaceholderShape(x);
    PlaceholderShape(y);
    PlaceholdersPrefixFree(x, y, post);
    OnlyBraceAt(pre, Placeholder(y), post, Placeholder(x));
  }

  /**
   A pattern opening with `{` can only occur where the text's single `{` is, so it
   occurs nowhere when it is not a prefix of the text from there on.
   */
  lemma OnlyBraceAt(pre: string, py: string, post: string, px: string)
    requires '{' !in pre && '{' !in post
    requires |py| > 0 && py[0] == '{' && forall k :: 0 < k < |py| ==> py[k] != '{'
    requires |px| > 0 && px[0] == '{'
    requires !(px <= py + post)
    ensures forall j :: !OccursAt(pre + py + post, px, j)
  {
    var s := pre + py + post;
    forall j | 0 <= j && j + |px| <= |s| ensures !OccursAt(s, px, j) {
      if j == |pre| {
        assert s[j..] == py + post;
      } else {
        assert s[j] != '{' by {
          if j < |pre| {
            assert s[j] == pre[j];
          } else if j < |pre| + |py| {
            assert s[j] == py[j - |pre|];
          } else {
            assert s[j] == post[j - |pre| - |py|];
          }
        }
        assert s[j..j + |px|][0] == s[j];
      }
    }
  }

  /** Text without `{` passes every substitution unchanged. */
  lemma {:induction false} FillSlotsWithoutBrace(text: string, topic: string, slots: seq<Slot>)
    requires '{' !in text
    ensures FillSlots(text, topic, slots) == text
    decreases |slots|
  {
    if |slots| > 0 {
      PlaceholderShape(slots[0]);
      NoOccurrenceWithoutBrace(text, Placeholder(slots[0]));
      ReplaceFirstSpec(text, Placeholder(slots[0]), Phrase(slots[0], topic));
      FillSlotsWithoutBrace(text, topic, slots[1..]);
    }
  }

  /**
   Substituting into text whose only placeholder is `y`: when `y` is among the
   substituted slots it becomes the topic's phrase (or the default), and nothing
   else changes; otherwise the text is untouched.
   */
  lemma {:induction false} FillSlotsSpec(pre: string, y: Slot, post: string, topic: string, slots: seq<Slot>)
    requires '{' !in pre && '{' !in post && Plain(Phrase(y, topic))
    ensures FillSlots(pre + Placeholder(y) + post, topic, slots)
            == if y in slots then pre + Phrase(y, topic) + post else pre + Placeholder(y) + post
    decreases |slots|
  {
    var text := pre + Placeholder(y) + post;
    if |slots| > 0 {
      var x := slots[0];
      PlaceholderShape(x);
      if x == y {
        ReplaceInContext(pre, Placeholder(y), post, Phrase(y, topic));
        FillSlotsWithoutBrace(pre + Phrase(y, topic) + post, topic, slots[1..]);
      } else {
        OtherPlaceholderAbsent(pre, y, post, x);
        ReplaceFirstSpec(text, Placeholder(x), Phrase(x, topic));
        FillSlotsSpec(pre, y, post, topic, slots[1..]);
        assert y in slots <==> y in slots[1..];
      }
    }
  }

  /**
   Filling a template: for a topic without `{` or `$`, `{topic}` becomes the topic
   and the template's phrase placeholder becomes the topic's table entry, or the
   placeholder's default phrase when the topic has no entry.
   */
  lemma FillTemplateSpec(t: Template, topic: string)
    requires TemplateBraceFree(t)
    requires Plain(topic) && Plain(Phrase(t.slot, topic))
    ensures FillTemplate(TemplateText(t), topic) == t.lead + topic + t.middle + Phrase(t.slot, topic) + t.tail
  {
    var slot := Placeholder(t.slot);
    var rest := t.middle + slot + t.tail;
    Regroup(t.lead, TopicPlaceholder, t.middle, slot, t.tail);
    ReplaceInContext(t.lead, TopicPlaceholder, rest, topic);
    Regroup(t.lead, topic, t.middle, slot, t.tail);
    FillEverySlot(t.lead + topic + t.middle, t.slot, t.tail, topic);
  }

  /** The full substitution pass reaches every slot. */
  lemma FillEverySlot(pre: string, y: Slot, post: string, topic: string)
    requires '{' !in pre && '{' !in post && Plain(Phrase(y, topic))
    ensures FillSlots(pre + Placeholder(y) + post, topic, SlotOrder) == pre + Phrase(y, topic) + post
  {
    FillSlotsSpec(pre, y, post, topic, SlotOrder);
    assert y in SlotOrder;
  }

  /** Concatenation regrouped around its second piece. */
  lemma Regroup(a: string, b: string, c: string, d: string, e: string)
    ensures a + b + c + d + e == a + b + (c + d + e)
  {
  }

  /**
   The whole generator for an enabled configuration: the drawn template filled
   for the drawn topic, followed by the hashtag suffix when hashtags are on, and
   cut to `maxLength` as `TruncateSpec` describes.
   */
  lemma GenerateAITweetSpec(c: Config, topicPick: nat, templatePick: nat)
    requires c.enabled
    requires topicPick < |TopicsOf(c)| && templatePick < |Templates|
    requires Plain(TopicsOf(c)[topicPick])
    requires Plain(Phrase(Templates[templatePick].slot, TopicsOf(c)[topicPick]))
    ensures var topic := TopicsOf(c)[topicPick];
            var t := Templates[templatePick];
            var hashtags := if c.includeHashtags then " " + Join(Hashtags(topic)[..TagsTaken(c.hashtagCount)], " ") else "";
            GenerateAITweet(Some(c), topicPick, templatePick)
            == Some(Truncate(t.lead + topic + t.middle + Phrase(t.slot, topic) + t.tail + hashtags, c.maxLength))
  {
    var topic := TopicsOf(c)[topicPick];
    TemplatesAreBraceFree(templatePick);
    FillTemplateSpec(Templates[templatePick], topic);
    HashtagSuffixSpec(topic, c.hashtagCount);
  }
}
