/**
 * Language selection for the bilingual (Vietnamese/English) chat: the
 * language of one query from its Vietnamese letters and keywords, the
 * language of a conversation from its last three messages, and which
 * language the answer is given in.
 *
 * The ratio of Vietnamese letters is a Python float; it is modelled as an
 * exact `real`, and each threshold is shown equal to an integer
 * cross-multiplication.
 */
module LanguageContext {
  import opened Lib

  datatype Lang = Vi | En

  /** The language code the service uses. */
  function Code(l: Lang): (s: string)
    ensures s == "vi" || s == "en"
  {
    if l == Vi then "vi" else "en"
  }

  /** The lower-case Vietnamese letters. */
  const VietnameseLetters: string :=
    "àáảãạăằắẳẵặâầấẩẫậèéẻẽẹêềếểễệìíỉĩịòóỏõọôồốổỗộơờớởỡợùúủũụưừứửữựỳýỷỹỵđ"

  /** The same letters in upper case, in the same order. */
  const VietnameseCapitals: string :=
    "ÀÁẢÃẠĂẰẮẲẴẶÂẦẤẨẪẬÈÉẺẼẸÊỀẾỂỄỆÌÍỈĨỊÒÓỎÕỌÔỒỐỔỖỘƠỜỚỞỠỢÙÚỦŨỤƯỪỨỬỮỰỲÝỶỸỴĐ"

  /** `c in VIETNAMESE_CHARS`: a Vietnamese letter in either case. */
  predicate IsVietnameseChar(c: char) {
    c in VietnameseLetters || c in VietnameseCapitals
  }

  /** Common Vietnamese words. */
  const ViKeywords: set<string> := {
    "là", "của", "và", "có", "được", "trong", "cho", "với", "này", "đó",
    "các", "những", "như", "để", "khi", "về", "giải", "thích", "làm", "sao",
    "gì", "ai", "đâu", "nào", "tại", "vì", "nếu", "thì", "mà", "nhưng",
    "hoặc", "hay", "cũng", "đã", "sẽ", "đang", "rồi", "chưa", "không",
    "bạn", "tôi", "chúng", "họ", "nó", "anh", "chị", "em"
  }

  /** Common English words. */
  const EnKeywords: set<string> := {
    "what", "how", "why", "when", "where", "who", "which",
    "is", "are", "was", "were", "the", "a", "an", "this", "that", "these",
    "explain", "describe", "tell", "show", "give", "define", "list",
    "can", "could", "would", "should", "will", "do", "does", "did",
    "please", "help", "need", "want", "like", "know", "think", "understand"
  }

  /** How many characters of `s` satisfy `isVi`. */
  function CountWhere(s: string, isVi: char -> bool): (n: nat)
    ensures n <= |s|
  {
    if s == [] then 0 else CountWhere(s[..|s| - 1], isVi) + (if isVi(s[|s| - 1]) then 1 else 0)
  }

  /** The Vietnamese letters of `s`. */
  function CountVietnamese(s: string): (n: nat)
    ensures n <= |s|
  {
    CountWhere(s, IsVietnameseChar)
  }

  /** What the query detector looks at: the length, the Vietnamese letters and the keywords of each language. */
  datatype Signals = Signals(length: nat, viChars: nat, viKeywords: nat, enKeywords: nat)

  predicate IsViKeyword(w: string) {
    w in ViKeywords
  }

  predicate IsEnKeyword(w: string) {
    w in EnKeywords
  }

  /** The distinct words of `ws` that are keywords. */
  function KeywordsIn(ws: seq<string>, isKeyword: string -> bool): (r: set<string>)
    ensures forall w :: w in r <==> w in ws && isKeyword(w)
  {
    if ws == [] then {}
    else KeywordsIn(ws[..|ws| - 1], isKeyword) + (if isKeyword(ws[|ws| - 1]) then {ws[|ws| - 1]} else {})
  }

  /** `len(set(text.split()) & keywords)` */
  function KeywordCount(text: string, isKeyword: string -> bool): nat {
    |KeywordsIn(Words(text), isKeyword)|
  }

  /** The signals of a text: letters counted in its lower-case form, keywords among its distinct lower-case words. */
  function SignalsOf(text: string): (sig: Signals)
    ensures sig.length == |text| && sig.viChars <= sig.length
  {
    var lower := LowerStr(text);
    Signals(|text|, CountVietnamese(lower), KeywordCount(lower, IsViKeyword), KeywordCount(lower, IsEnKeyword))
  }

  /** The five rules, in priority order, over the ratio of Vietnamese letters. */
  function Decide(sig: Signals): Lang
    requires sig.length > 0
  {
    var ratio := sig.viChars as real / sig.length as real;
    if ratio > 0.15 then Vi
    else if sig.viKeywords >= 2 then Vi
    else if sig.enKeywords >= 2 && sig.viKeywords == 0 && ratio < 0.02 then En
    else if ratio > 0.05 && sig.viKeywords > 0 then Vi
    else if sig.viKeywords >= 1 && ratio > 0.02 then Vi
    else En
  }

  /** `detect_query_language`: English for texts shorter than three characters. */
  function DetectQueryLanguage(text: string): (l: Lang)
    ensures |text| < 3 ==> l == En
  {
    if |text| < 3 then En else Decide(SignalsOf(text))
  }

  /** `c / n > p / q` compares like `c * q > p * n`, and likewise for `<`. */
  lemma RatioCompare(c: nat, n: nat, p: nat, q: nat)
    requires n > 0 && q > 0
    ensures (c as real / n as real > p as real / q as real) <==> c * q > p * n
    ensures (c as real / n as real < p as real / q as real) <==> c * q < p * n
  {
    var r := c as real / n as real;
    var t := p as real / q as real;
    assert r * n as real == c as real;
    assert t * q as real == p as real;
    assert (c * q) as real == r * (n * q) as real;
    assert (p * n) as real == t * (n * q) as real;
    assert (n * q) as real > 0.0;
  }

  /**
   * The rules in integers: more than 3 in 20 characters Vietnamese
   * letters, or two Vietnamese keywords, or one and more than 1 in 50
   * characters Vietnamese letters.
   */
  predicate VietnameseByCounts(sig: Signals) {
    20 * sig.viChars > 3 * sig.length || sig.viKeywords >= 2 || (sig.viKeywords >= 1 && 50 * sig.viChars > sig.length)
  }

  /**
   * The five rules decide Vietnamese exactly when the integer rules do.
   * The English-keyword rule and the 5% rule never change the outcome: the
   * first needs no Vietnamese keyword, and the second is covered by the 2%
   * rule.
   */
  lemma {:induction false} DecideInIntegers(sig: Signals)
    requires sig.length > 0
    ensures Decide(sig) == Vi <==> VietnameseByCounts(sig)
  {
    RatioCompare(sig.viChars, sig.length, 15, 100);
    RatioCompare(sig.viChars, sig.length, 2, 100);
    RatioCompare(sig.viChars, sig.length, 5, 100);
    assert 0.15 == 15 as real / 100 as real;
    assert 0.02 == 2 as real / 100 as real;
    assert 0.05 == 5 as real / 100 as real;
  }

  /** A query is Vietnamese exactly when it has three or more characters and its signals pass the integer rules. */
  lemma DetectInIntegers(text: string)
    ensures DetectQueryLanguage(text) == Vi <==> |text| >= 3 && VietnameseByCounts(SignalsOf(text))
  {
    if |text| >= 3 {
      DecideInIntegers(SignalsOf(text));
    }
  }

  // ---------------------------------------------------------------------------
  // detect_conversation_language

  /** A history message: a dict of strings. */
  type HistoryMessage = map<string, string>

  /** `msg.get("content", "")` */
  function ContentOf(m: HistoryMessage): string {
    if "content" in m then m["content"] else ""
  }

  /** `history[-3:]` */
  function Recent(history: seq<HistoryMessage>): (r: seq<HistoryMessage>)
    ensures |r| == Min(|history|, 3) && r == history[|history| - |r|..]
  {
    if |history| <= 3 then history else history[|history| - 3..]
  }

  /** The language each message's content reads as. */
  function LanguagesOf(ms: seq<HistoryMessage>): (r: seq<Lang>)
    ensures |r| == |ms| && forall i :: 0 <= i < |ms| ==> r[i] == DetectQueryLanguage(ContentOf(ms[i]))
  {
    seq(|ms|, i requires 0 <= i < |ms| => DetectQueryLanguage(ContentOf(ms[i])))
  }

  /** How many of `langs` are Vietnamese. */
  function ViCount(langs: seq<Lang>): (n: nat)
    ensures n <= |langs|
  {
    if langs == [] then 0 else ViCount(langs[..|langs| - 1]) + (if langs[|langs| - 1] == Vi then 1 else 0)
  }

  /** Counting one more language. */
  lemma ViCountStep(langs: seq<Lang>, i: nat, lang: Lang)
    requires i < |langs| && langs[i] == lang
    ensures ViCount(langs[..i + 1]) == ViCount(langs[..i]) + (if lang == Vi then 1 else 0)
  {
    assert langs[..i + 1][..i] == langs[..i];
  }

  /** Vietnamese when strictly more of `langs` are Vietnamese than English. */
  function Majority(langs: seq<Lang>): Lang {
    if ViCount(langs) > |langs| - ViCount(langs) then Vi else En
  }

  /** The conversation's language: the majority over the last three messages. */
  function ConversationLanguage(history: seq<HistoryMessage>): Lang {
    Majority(LanguagesOf(Recent(history)))
  }

  /** `detect_conversation_language` */
  method DetectConversationLanguage(history: seq<HistoryMessage>) returns (l: Lang)
    ensures l == ConversationLanguage(history)
  {
    if history == [] {
      return En;
    }
    var recent := if |history| <= 3 then history else history[|history| - 3..];
    ghost var langs := LanguagesOf(recent);
    var viCount := 0;
    var enCount := 0;
    for i := 0 to |recent|
      invariant viCount == ViCount(langs[..i]) && enCount == i - viCount
    {
      var lang := DetectQueryLanguage(ContentOf(recent[i]));
      ViCountStep(langs, i, lang);
      if lang == Vi {
        viCount := viCount + 1;
      } else {
        enCount := enCount + 1;
      }
    }
    assert langs[..|recent|] == langs;
    l := if viCount > enCount then Vi else En;
  }

  /** An empty history is English. */
  lemma EmptyConversationIsEnglish()
    ensures ConversationLanguage([]) == En
  {
    assert LanguagesOf(Recent([])) == [];
  }

  /** Only the last three messages count. */
  lemma ConversationLanguageOfRecent(older: seq<HistoryMessage>, last: seq<HistoryMessage>)
    requires |last| == 3
    ensures ConversationLanguage(older + last) == ConversationLanguage(last)
  {
    var h := older + last;
    assert h[|h| - 3..] == last;
    assert Recent(h) == Recent(last);
  }

  /** Vietnamese needs a strict majority: a tie, as between two messages, is English. */
  lemma MajorityIsStrict(langs: seq<Lang>)
    ensures Majority(langs) == Vi <==> 2 * ViCount(langs) > |langs|
    ensures |langs| == 3 ==> (Majority(langs) == Vi <==> ViCount(langs) >= 2)
    ensures |langs| == 2 ==> (Majority(langs) == Vi <==> langs == [Vi, Vi])
  {
    if |langs| == 2 {
      assert langs[..1][..0] == [];
      assert langs == [langs[0], langs[1]];
    }
  }

  // ---------------------------------------------------------------------------
  // get_language_context

  datatype LanguageContext = LanguageContext(
    queryLanguage: Lang,
    responseLanguage: Lang,
    conversationLanguage: Option<Lang>,
    userPreference: Option<Lang>,
    languageSwitched: bool)

  /** An explicit preference, when it is "vi" or "en". */
  function Preference(p: Option<string>): (r: Option<Lang>)
    ensures r.Some? <==> p == Some("vi") || p == Some("en")
    ensures r.Some? ==> p == Some(Code(r.value))
  {
    if p == Some("vi") then Some(Vi) else if p == Some("en") then Some(En) else None
  }

  /** `get_language_context`: an explicit preference first, then the conversation's language, then the query's. */
  function GetLanguageContext(query: string, history: Option<seq<HistoryMessage>>, preference: Option<string>): (c: LanguageContext)
    ensures c.queryLanguage == DetectQueryLanguage(query)
  {
    var queryLang := DetectQueryLanguage(query);
    var preferred := Preference(preference);
    if preferred.Some? then LanguageContext(queryLang, preferred.value, None, preferred, false)
    else if history.Some? && history.value != [] then
      var conversationLang := ConversationLanguage(history.value);
      if queryLang != conversationLang then LanguageContext(queryLang, queryLang, Some(queryLang), None, true)
      else LanguageContext(queryLang, conversationLang, Some(conversationLang), None, false)
    else LanguageContext(queryLang, queryLang, Some(queryLang), None, false)
  }

  /** An explicit "vi" or "en" is the answer's language, with no switch. */
  lemma PreferenceWins(query: string, history: Option<seq<HistoryMessage>>, preference: Option<string>)
    requires preference == Some("vi") || preference == Some("en")
    ensures var c := GetLanguageContext(query, history, preference);
      Code(c.responseLanguage) == preference.value && c.userPreference.Some? && !c.languageSwitched
  {
  }

  /**
   * Without a usable preference: with history, the answer follows the
   * query and is a switch when the query's language differs from the
   * conversation's, and follows the conversation otherwise; without
   * history it follows the query with no switch. Either way the answer is
   * in the query's language.
   */
  lemma ResponseFollowsQuery(query: string, history: Option<seq<HistoryMessage>>, preference: Option<string>)
    requires preference != Some("vi") && preference != Some("en")
    ensures var c := GetLanguageContext(query, history, preference);
      && c.responseLanguage == DetectQueryLanguage(query)
      && c.userPreference.None?
      && (c.languageSwitched <==>
            history.Some? && history.value != [] && DetectQueryLanguage(query) != ConversationLanguage(history.value))
  {
  }

  /** What `get_language_switch_message` announces. */
  datatype SwitchNotice = SwitchedToVietnamese | SwitchedToEnglish

  /** `get_language_switch_message`: a notice in the answer's language exactly when the language switched. */
  function LanguageSwitchMessage(c: LanguageContext): (r: Option<SwitchNotice>)
    ensures r.None? <==> !c.languageSwitched
    ensures r == Some(SwitchedToVietnamese) <==> c.languageSwitched && c.responseLanguage == Vi
  {
    if !c.languageSwitched then None
    else if c.responseLanguage == Vi then Some(SwitchedToVietnamese)
    else Some(SwitchedToEnglish)
  }
}
