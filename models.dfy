/** The tier catalog and the request/response records of the chat-completion API. */
module Models {
  import opened Base
  import opened Strings

  /** The closed set of service tiers. */
  datatype Tier = Nano | Standard | Pro | Max {

    /** The wire name of the tier (serde `rename_all = "UPPERCASE"`). */
    function Name(): string {
      match this
      case Nano => "NANO"
      case Standard => "STANDARD"
      case Pro => "PRO"
      case Max => "MAX"
    }

    /** The tier whose wire name is exactly `u`, if any. */
    static function FromName(u: string): (r: Option<Tier>)
      ensures r.Some? ==> u == r.value.Name()
      ensures r.None? ==> forall t: Tier :: u != t.Name()
    {
      if u == "NANO" then Some(Nano)
      else if u == "STANDARD" then Some(Standard)
      else if u == "PRO" then Some(Pro)
      else if u == "MAX" then Some(Max)
      else None
    }

    /**
      `Tier::parse`: trims, ASCII-uppercases and then accepts exactly one of the
      four wire names; anything else is `None`.
     */
    static function Parse(s: string): (r: Option<Tier>)
      ensures r.Some? ==> Normalise(s) == r.value.Name()
      ensures r.None? ==> forall t: Tier :: Normalise(s) != t.Name()
    {
      FromName(Normalise(s))
    }
  }

  /** The form `Tier::parse` compares against the wire names. */
  function Normalise(s: string): (u: string) {
    ToAsciiUppercase(Trim(s))
  }

  /** A string without lower-case ASCII letters is its own uppercase. */
  lemma UppercaseFixed(s: string)
    requires forall i :: 0 <= i < |s| ==> !('a' <= s[i] <= 'z')
    ensures ToAsciiUppercase(s) == s
  {
  }

  /** Every tier's wire name parses back to that tier. */
  lemma ParseName(t: Tier)
    ensures Tier.Parse(t.Name()) == Some(t)
  {
    NameIsUpperWord(t);
    NameFixed(t.Name());
    FromNameOfName(t);
  }

  /** Each wire name is the name of its own tier only. */
  lemma FromNameOfName(t: Tier)
    ensures Tier.FromName(t.Name()) == Some(t)
  {
  }

  /** An upper-case word without surrounding whitespace is already normalised. */
  lemma NameFixed(n: string)
    requires forall i :: 0 <= i < |n| ==> 'A' <= n[i] <= 'Z'
    ensures Normalise(n) == n
  {
    TrimFixed(n);
    UppercaseFixed(n);
  }

  /** A wire name is an upper-case ASCII word, so it contains no separator or space. */
  lemma NameIsUpperWord(t: Tier)
    ensures forall i :: 0 <= i < |t.Name()| ==> 'A' <= t.Name()[i] <= 'Z'
  {
  }

  /** Leading and trailing whitespace are ignored. */
  lemma ParseIgnoresTrim(s: string)
    ensures Tier.Parse(Trim(s)) == Tier.Parse(s)
  {
    TrimIdempotent(s);
    assert Normalise(Trim(s)) == Normalise(s);
  }

  /** Any whitespace padding on either side is ignored. */
  lemma ParseIgnoresPadding(w1: string, s: string, w2: string)
    requires AllWhitespace(w1) && AllWhitespace(w2)
    ensures Tier.Parse(w1 + s + w2) == Tier.Parse(s)
  {
    TrimPadded(w1, s, w2);
    assert Normalise(w1 + s + w2) == Normalise(s);
  }

  /** Strings that agree up to ASCII case parse alike. */
  lemma ParseCaseInsensitive(s1: string, s2: string)
    requires ToAsciiUppercase(s1) == ToAsciiUppercase(s2)
    ensures Tier.Parse(s1) == Tier.Parse(s2)
  {
    TrimUppercaseCommute(s1);
    TrimUppercaseCommute(s2);
    assert Normalise(s1) == Normalise(s2);
  }

  /** Normalising the input first (trim, then uppercase) changes nothing. */
  lemma ParseNormalised(s: string)
    ensures Tier.Parse(Normalise(s)) == Tier.Parse(s)
  {
    TrimUppercaseCommute(Trim(s));
    TrimIdempotent(s);
    UppercaseIdempotent(Trim(s));
    assert Normalise(Normalise(s)) == Normalise(s);
  }

  /** The cases of the smoke test: an upper-case and a lower-case tier name. */
  lemma ParseSmoke()
    ensures Tier.Parse("STANDARD") == Some(Standard)
    ensures Tier.Parse("nano") == Some(Nano)
  {
    ParseName(Standard);
    ParseName(Nano);
    assert ToAsciiUppercase("nano") == "NANO";
    ParseCaseInsensitive("nano", "NANO");
  }

  /** A padded lower-case name is accepted. */
  lemma ParsePadded()
    ensures Tier.Parse(" standard ") == Some(Standard)
  {
    ParseLowerStandard();
    assert " standard " == " " + "standard" + " ";
    ParseIgnoresPadding(" ", "standard", " ");
  }

  lemma ParseLowerStandard()
    ensures Tier.Parse("standard") == Some(Standard)
  {
    assert ToAsciiUppercase("standard") == "STANDARD";
    ParseCaseInsensitive("standard", "STANDARD");
    ParseName(Standard);
  }

  /** A word that is no tier name is rejected. */
  lemma ParseUnknown()
    ensures Tier.Parse("bogus") == None
  {
    TrimFixed("bogus");
    assert Normalise("bogus") == "BOGUS";
  }

  datatype ChatMessage = ChatMessage(role: string, content: string)

  /** `temperature` is carried but never read by the pipeline. */
  datatype ChatCompletionRequest = ChatCompletionRequest(
    model: string,
    messages: seq<ChatMessage>,
    maxTokens: Option<u32>,
    temperature: Option<real>)

  datatype Choice = Choice(index: u32, message: ChatMessage, finishReason: string)

  datatype Usage = Usage(promptTokens: u32, completionTokens: u32, totalTokens: u32)

  datatype ChatCompletionResponse = ChatCompletionResponse(
    id: string,
    created: i64,
    model: string,
    choices: seq<Choice>,
    usage: Usage)

  const ID_PREFIX := "auria_"

  /**
    `new_id`: the prefix followed by a unique token. The token (a random UUID
    in the source) is a parameter here.
   */
  function NewId(token: string): (id: string)
    ensures |id| == |ID_PREFIX| + |token|
    ensures id[..|ID_PREFIX|] == ID_PREFIX && id[|ID_PREFIX|..] == token
  {
    ID_PREFIX + token
  }

  /** Different tokens give different ids. */
  lemma NewIdInjective(t1: string, t2: string)
    requires NewId(t1) == NewId(t2)
    ensures t1 == t2
  {
  }
}
