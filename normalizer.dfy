/**
 * The webhook's lead normaliser: the object literal that turns an arbitrary
 * ScoreApp payload into a canonical lead, and `categorizeScore`.
 */
module Normalizer {
  import opened Js

  /**
   * A stored lead. The contact and attribution fields hold whichever payload
   * value the alias fallback picked (JavaScript copies the value, it does not
   * convert it). `receivedAt` is the instant of ingestion in milliseconds since
   * the epoch; `score` is `null` or a non-zero number.
   */
  datatype Lead = Lead(
    id: Value,
    receivedAt: int,
    name: Value,
    email: Value,
    phone: Value,
    company: Value,
    utmSource: Value,
    utmMedium: Value,
    utmCampaign: Value,
    utmContent: Value,
    utmTerm: Value,
    source: Value,
    score: Value,
    scoreLabel: Value,
    scoreCategory: string,
    meetingBooked: bool,
    raw: Payload)

  // The four score categories, hottest first.
  const ReadyToBuy: string := "Klar til køb"
  const Considering: string := "Overvejer"
  const EarlyStage: string := "Tidlig fase"
  const NotReady: string := "Ikke klar"

  predicate IsCategory(c: string) {
    c == ReadyToBuy || c == Considering || c == EarlyStage || c == NotReady
  }

  /**
   * `categorizeScore(score)`: a step function with thresholds 80, 60 and 40.
   * Every comparison with NaN is false, so NaN lands in the lowest category.
   */
  function CategorizeScore(score: ParsedInt): (c: string)
    ensures IsCategory(c)
    ensures c == ReadyToBuy <==> score.Int? && 80 <= score.value
    ensures c == Considering <==> score.Int? && 60 <= score.value < 80
    ensures c == EarlyStage <==> score.Int? && 40 <= score.value < 60
    ensures c == NotReady <==> score.NaN? || score.value < 40
  {
    if score.Int? && score.value >= 80 then ReadyToBuy
    else if score.Int? && score.value >= 60 then Considering
    else if score.Int? && score.value >= 40 then EarlyStage
    else NotReady
  }

  /** The position of a category on the scale, 0 for "not ready" up to 3 for "ready to buy". */
  function CategoryRank(c: string): nat {
    if c == ReadyToBuy then 3
    else if c == Considering then 2
    else if c == EarlyStage then 1
    else 0
  }

  /** A higher score never lands in a lower category. */
  lemma CategorizeMonotone(a: int, b: int)
    requires a <= b
    ensures CategoryRank(CategorizeScore(Int(a))) <= CategoryRank(CategorizeScore(Int(b)))
  {
  }

  /**
   * The alias fallback `v` of `p[keys[0]] || p[keys[1]] || ... || dflt`: the value of the
   * first alias whose value is truthy, or the default when none is.
   */
  ghost predicate AliasResolved(p: Payload, keys: seq<string>, dflt: Value, v: Value) {
    || ((forall i :: 0 <= i < |keys| ==> !Truthy(Get(p, keys[i]))) && v == dflt)
    || (exists i :: 0 <= i < |keys| && Truthy(Get(p, keys[i])) && v == Get(p, keys[i]) &&
                    forall j :: 0 <= j < i ==> !Truthy(Get(p, keys[j])))
  }

  /** `p[keys[0]] || p[keys[1]] || ... || dflt` */
  function FirstTruthy(p: Payload, keys: seq<string>, dflt: Value): (v: Value)
    ensures AliasResolved(p, keys, dflt, v)
    ensures Truthy(v) || v == dflt
  {
    if keys == [] then dflt
    else
      if Truthy(Get(p, keys[0])) then
        Get(p, keys[0])
      else
        var rest := FirstTruthy(p, keys[1..], dflt);
        FalsyHeadSkipped(p, keys, dflt, rest);
        rest
  }

  /** An alias whose value is falsy is passed over: the fallback of the remaining aliases decides. */
  lemma FalsyHeadSkipped(p: Payload, keys: seq<string>, dflt: Value, v: Value)
    requires keys != [] && !Truthy(Get(p, keys[0]))
    requires AliasResolved(p, keys[1..], dflt, v)
    ensures AliasResolved(p, keys, dflt, v)
  {
    var tail := keys[1..];
    if forall i :: 0 <= i < |tail| ==> !Truthy(Get(p, tail[i])) {
      assert forall i :: 0 <= i < |keys| ==> !Truthy(Get(p, keys[i])) by {
        forall i | 0 <= i < |keys| ensures !Truthy(Get(p, keys[i])) {
          if i > 0 { assert keys[i] == tail[i - 1]; }
        }
      }
    } else {
      var i :| 0 <= i < |tail| && Truthy(Get(p, tail[i])) && v == Get(p, tail[i]) &&
               forall j :: 0 <= j < i ==> !Truthy(Get(p, tail[j]));
      assert keys[i + 1] == tail[i];
      assert forall j :: 0 <= j < i + 1 ==> !Truthy(Get(p, keys[j])) by {
        forall j | 0 <= j < i + 1 ensures !Truthy(Get(p, keys[j])) {
          if j > 0 { assert keys[j] == tail[j - 1]; }
        }
      }
    }
  }

  // The alias keys tried for each field, in priority order.
  const IdKeys: seq<string> := ["id", "submission_id"]
  const NameKeys: seq<string> := ["name", "full_name"]
  const EmailKeys: seq<string> := ["email", "contact_email"]
  const PhoneKeys: seq<string> := ["phone", "contact_phone"]
  const CompanyKeys: seq<string> := ["company", "company_name", "organisation"]
  const UtmSourceKeys: seq<string> := ["utm_source", "utmSource", "source"]
  const UtmMediumKeys: seq<string> := ["utm_medium", "utmMedium", "medium"]
  const UtmCampaignKeys: seq<string> := ["utm_campaign", "utmCampaign", "campaign"]
  const UtmContentKeys: seq<string> := ["utm_content", "utmContent", "content"]
  const UtmTermKeys: seq<string> := ["utm_term", "utmTerm", "term"]
  const SourceKeys: seq<string> := ["utm_source", "source"]
  const ScoreKeys: seq<string> := ["score", "total_score"]
  const ScoreLabelKeys: seq<string> := ["score_label", "result_label"]

  /** A truthy value never prints as the empty string. */
  lemma TruthyPrintsNonEmpty(v: Value)
    ensures Truthy(v) ==> ToStr(v) != ""
  {
  }

  /** `[first, last].filter(Boolean).join(' ')` */
  function JoinedName(first: Value, last: Value): (s: string)
    ensures s != "" <==> Truthy(first) || Truthy(last)
  {
    TruthyPrintsNonEmpty(first);
    TruthyPrintsNonEmpty(last);
    if Truthy(first) && Truthy(last) then ToStr(first) + " " + ToStr(last)
    else if Truthy(first) then ToStr(first)
    else if Truthy(last) then ToStr(last)
    else ""
  }

  /** `parseInt(p.score || p.total_score || 0) || null` */
  function ScoreField(p: Payload): (v: Value)
    ensures v == Null || (v.Num? && v.n != 0)
    ensures v == Null <==> ParseIntValue(FirstTruthy(p, ScoreKeys, Num(0))) in {NaN, Int(0)}
    ensures v.Num? ==> ParseIntValue(FirstTruthy(p, ScoreKeys, Num(0))) == Int(v.n)
  {
    match ParseIntValue(FirstTruthy(p, ScoreKeys, Num(0)))
    case Int(n) => if n != 0 then Num(n) else Null
    case NaN => Null
  }

  /** `p.score ? categorizeScore(parseInt(p.score)) : ''` */
  function ScoreCategoryField(p: Payload): (c: string)
    ensures c == "" <==> !Truthy(Get(p, "score"))
  {
    if Truthy(Get(p, "score")) then CategorizeScore(ParseIntValue(Get(p, "score"))) else ""
  }

  /**
   * What every lead the webhook builds satisfies: an id, a name and a source
   * that are never empty, a score that is null or a non-zero number, and a
   * category that is empty or one of the four.
   */
  predicate WellFormed(l: Lead) {
    && Truthy(l.id) && Truthy(l.name) && Truthy(l.source)
    && (l.score == Null || (l.score.Num? && l.score.n != 0))
    && (l.scoreCategory == "" || IsCategory(l.scoreCategory))
  }

  /**
   * The lead the webhook builds from payload `p` received at instant `now`
   * (milliseconds); `now` also stands for `Date.now()` in the synthesised id.
   */
  function Normalize(p: Payload, now: int): (r: Lead)
    ensures r.receivedAt == now && r.raw == p
    // every alias field takes the first truthy alias, else its default
    ensures AliasResolved(p, IdKeys, Str(IntToString(now)), r.id)
    ensures AliasResolved(p, EmailKeys, Str(""), r.email)
    ensures AliasResolved(p, PhoneKeys, Str(""), r.phone)
    ensures AliasResolved(p, CompanyKeys, Str(""), r.company)
    ensures AliasResolved(p, UtmSourceKeys, Str(""), r.utmSource)
    ensures AliasResolved(p, UtmMediumKeys, Str(""), r.utmMedium)
    ensures AliasResolved(p, UtmCampaignKeys, Str(""), r.utmCampaign)
    ensures AliasResolved(p, UtmContentKeys, Str(""), r.utmContent)
    ensures AliasResolved(p, UtmTermKeys, Str(""), r.utmTerm)
    ensures AliasResolved(p, SourceKeys, Str("ScoreApp"), r.source)
    ensures AliasResolved(p, ScoreLabelKeys, Str(""), r.scoreLabel)
    ensures AliasResolved(p, NameKeys, Str(if JoinedName(Get(p, "first_name"), Get(p, "last_name")) != ""
                                          then JoinedName(Get(p, "first_name"), Get(p, "last_name"))
                                          else "Ukendt"), r.name)
    // id, name and source never come out empty; the score is null or a non-zero number
    ensures WellFormed(r)
    // the score is the parsed first truthy score alias, null when that is NaN or 0
    ensures r.score == Null <==> ParseIntValue(FirstTruthy(p, ScoreKeys, Num(0))) in {NaN, Int(0)}
    ensures r.score.Num? ==> ParseIntValue(FirstTruthy(p, ScoreKeys, Num(0))) == Int(r.score.n)
    // a category exactly when `p.score` is truthy
    ensures r.scoreCategory == "" <==> !Truthy(Get(p, "score"))
    ensures Truthy(Get(p, "score")) ==> r.scoreCategory == CategorizeScore(ParseIntValue(Get(p, "score")))
    ensures r.meetingBooked <==> Get(p, "meeting_booked") == Bool(true) || Get(p, "meeting_booked") == Str("true")
  {
    var joined := JoinedName(Get(p, "first_name"), Get(p, "last_name"));
    assert Truthy(Str(IntToString(now)));
    Lead(
      id := FirstTruthy(p, IdKeys, Str(IntToString(now))),
      receivedAt := now,
      name := FirstTruthy(p, NameKeys, if joined != "" then Str(joined) else Str("Ukendt")),
      email := FirstTruthy(p, EmailKeys, Str("")),
      phone := FirstTruthy(p, PhoneKeys, Str("")),
      company := FirstTruthy(p, CompanyKeys, Str("")),
      utmSource := FirstTruthy(p, UtmSourceKeys, Str("")),
      utmMedium := FirstTruthy(p, UtmMediumKeys, Str("")),
      utmCampaign := FirstTruthy(p, UtmCampaignKeys, Str("")),
      utmContent := FirstTruthy(p, UtmContentKeys, Str("")),
      utmTerm := FirstTruthy(p, UtmTermKeys, Str("")),
      source := FirstTruthy(p, SourceKeys, Str("ScoreApp")),
      score := ScoreField(p),
      scoreLabel := FirstTruthy(p, ScoreLabelKeys, Str("")),
      scoreCategory := ScoreCategoryField(p),
      meetingBooked := Get(p, "meeting_booked") == Bool(true) || Get(p, "meeting_booked") == Str("true"),
      raw := p)
  }

  /** A payload that carries `utm_source` gets that value as both `utmSource` and `source`. */
  lemma UtmSourceDrivesSource(p: Payload, now: int)
    requires Truthy(Get(p, "utm_source"))
    ensures Normalize(p, now).utmSource == Get(p, "utm_source")
    ensures Normalize(p, now).source == Get(p, "utm_source")
  {
    var r := Normalize(p, now);
    assert UtmSourceKeys[0] == "utm_source" && SourceKeys[0] == "utm_source";
  }

  /** Without `utm_source`, `source` falls back to the bare `source` key and then to "ScoreApp". */
  lemma SourceWithoutUtm(p: Payload, now: int)
    requires !Truthy(Get(p, "utm_source"))
    ensures Truthy(Get(p, "source")) ==> Normalize(p, now).source == Get(p, "source")
    ensures !Truthy(Get(p, "source")) ==> Normalize(p, now).source == Str("ScoreApp")
  {
    var r := Normalize(p, now);
    assert SourceKeys[0] == "utm_source" && SourceKeys[1] == "source";
    if Truthy(Get(p, "source")) {
      var i :| 0 <= i < 2 && Truthy(Get(p, SourceKeys[i])) && r.source == Get(p, SourceKeys[i]) &&
               forall j :: 0 <= j < i ==> !Truthy(Get(p, SourceKeys[j]));
    }
  }

  /** Neither `score` nor `total_score` present: no score and no category. */
  lemma AbsentScore(p: Payload, now: int)
    requires !Truthy(Get(p, "score")) && !Truthy(Get(p, "total_score"))
    ensures Normalize(p, now).score == Null
    ensures Normalize(p, now).scoreCategory == ""
  {
    assert FirstTruthy(p, ScoreKeys, Num(0)) == Num(0) by {
      assert ScoreKeys[0] == "score" && ScoreKeys[1] == "total_score";
    }
    ParseIntOfNumber(0);
  }

  /** A non-zero numeric `score` is kept as it is and categorised by its value. */
  lemma NumericScore(p: Payload, now: int, n: int)
    requires Get(p, "score") == Num(n) && n != 0
    ensures Normalize(p, now).score == Num(n)
    ensures Normalize(p, now).scoreCategory == CategorizeScore(Int(n))
  {
    assert FirstTruthy(p, ScoreKeys, Num(0)) == Num(n) by {
      assert ScoreKeys[0] == "score";
    }
    ParseIntOfNumber(n);
  }

  /** A positive score written as decimal digits, as forms post it, is read as that number and categorised by it. */
  lemma DigitStringScore(p: Payload, now: int, n: nat)
    requires n > 0 && Get(p, "score") == Str(NatToString(n))
    ensures Normalize(p, now).score == Num(n)
    ensures Normalize(p, now).scoreCategory == CategorizeScore(Int(n))
  {
    assert FirstTruthy(p, ScoreKeys, Num(0)) == Str(NatToString(n)) by {
      assert ScoreKeys[0] == "score";
    }
    DecimalDigitsValue(n);
    DecimalDigitsParse(NatToString(n));
    UnsignedDecimalParses(NatToString(n), n);
  }

  /** The string "0" is a present score: it gets a category even though the score itself is null. */
  lemma ZeroStringScore(p: Payload, now: int)
    requires Get(p, "score") == Str("0")
    ensures Normalize(p, now).score == Null
    ensures Normalize(p, now).scoreCategory == NotReady
  {
    assert FirstTruthy(p, ScoreKeys, Num(0)) == Str("0") by {
      assert ScoreKeys[0] == "score";
    }
    assert DigitsValue("0", 10) == 0 by {
      assert "0"[..0] == "";
    }
    DecimalDigitsParse("0");
    UnsignedDecimalParses("0", 0);
  }

  /** A score that does not parse is dropped, yet, being present, still gets the lowest category. */
  lemma UnparseableScore(p: Payload, now: int, s: string)
    requires Get(p, "score") == Str(s) && s != "" && ParseInt(s) == NaN
    ensures Normalize(p, now).score == Null
    ensures Normalize(p, now).scoreCategory == NotReady
  {
    assert FirstTruthy(p, ScoreKeys, Num(0)) == Str(s) by {
      assert ScoreKeys[0] == "score";
    }
    assert ParseIntValue(Str(s)) == NaN;
  }

  /** A score sent only as `total_score` is kept, but gets no category: that is computed from `p.score` alone. */
  lemma TotalScoreOnly(p: Payload, now: int, n: int)
    requires !Truthy(Get(p, "score")) && Get(p, "total_score") == Num(n) && n != 0
    ensures Normalize(p, now).score == Num(n)
    ensures Normalize(p, now).scoreCategory == ""
  {
    assert FirstTruthy(p, ScoreKeys, Num(0)) == Num(n) by {
      assert ScoreKeys[0] == "score" && ScoreKeys[1] == "total_score";
    }
    ParseIntOfNumber(n);
  }
}
