/** The deterministic text fallbacks of the explanation service
    (backend/app/llm_service.py): identifier masking, the rule-based risk
    explanation used when the language model is unavailable, and the canned
    compliance answers. */
module Explainer {
  import opened Wrappers
  import opened Seqs
  import opened Text
  import opened FraudSignals
  import opened FraudResults

  // ---------------------------------------------------------------------
  // Identifier masking

  const MaskFill: string := "***"

  /** `_mask_identifier`: identifiers of at most four characters are shown
      as they are; longer ones keep their first two and last two characters
      around three asterisks. */
  function MaskIdentifier(id: string): (r: string)
    ensures |id| <= 4 ==> r == id
    ensures |id| > 4 ==> |r| == 7 && r[..2] == id[..2] && r[2..5] == MaskFill && r[5..] == id[|id| - 2..]
  {
    if |id| <= 4 then id else id[..2] + MaskFill + id[|id| - 2..]
  }

  /** Masking a masked identifier changes nothing. */
  lemma MaskIdempotent(id: string)
    ensures MaskIdentifier(MaskIdentifier(id)) == MaskIdentifier(id)
  {
    var m := MaskIdentifier(id);
    if |id| > 4 {
      assert m == m[..2] + m[2..5] + m[5..];
    }
  }

  /** A long identifier's mask depends only on its first and last two
      characters. */
  lemma MaskHidesMiddle(a: string, b: string)
    requires |a| > 4 && |b| > 4
    requires a[..2] == b[..2] && a[|a| - 2..] == b[|b| - 2..]
    ensures MaskIdentifier(a) == MaskIdentifier(b)
  {
  }

  // ---------------------------------------------------------------------
  // Fallback explanation

  const LowRiskText: string := "Low risk account with normal transaction patterns and no significant red flags detected."
  const SharedDeviceText: string := "Multiple users accessing from same device - potential account takeover or mule network."
  const SharedIpText: string := "Shared IP address with other users - possible coordinated activity."
  const StructuringText: string := "Structuring pattern detected - multiple small transactions to evade reporting thresholds."
  const CircularText: string := "Circular transaction pattern - potential layering to obscure fund origins."
  const ElevatedText: string := "Elevated risk based on network analysis and transaction patterns."

  const LowRiskBelow: real := 3.0
  const MaxSentences: nat := 3

  /** The sentence for a signal type name, if the type is one of the four
      the fallback knows. */
  function SentenceFor(signalType: string): Option<string> {
    if signalType == "shared_device" then Some(SharedDeviceText)
    else if signalType == "shared_ip" then Some(SharedIpText)
    else if signalType == "structuring" then Some(StructuringText)
    else if signalType == "circular_flow" then Some(CircularText)
    else None
  }

  predicate IsKnownType(signalType: string) { SentenceFor(signalType).Some? }

  function KnownSentence(signalType: string): string {
    SentenceFor(signalType).GetOr("")
  }

  /** One sentence per signal of a known type, in signal order. */
  function Sentences(types: seq<string>): (r: seq<string>)
    ensures |r| == CountOf(types, IsKnownType)
    ensures forall s :: s in r ==> s in {SharedDeviceText, SharedIpText, StructuringText, CircularText}
  {
    if types == [] then []
    else
      var t := types[0];
      (if IsKnownType(t) then [KnownSentence(t)] else []) + Sentences(types[1..])
  }

  /** The sentences are those of the known-type signals, in order. */
  lemma {:induction false} SentencesOfKnown(types: seq<string>)
    ensures Sentences(types) == MapSeq(Filter(types, IsKnownType), KnownSentence)
  {
    if types != [] {
      SentencesOfKnown(types[1..]);
      var rest := MapSeq(Filter(types[1..], IsKnownType), KnownSentence);
      if IsKnownType(types[0]) {
        var f := Filter(types, IsKnownType);
        assert f == [types[0]] + Filter(types[1..], IsKnownType);
        assert MapSeq(f, KnownSentence) == [KnownSentence(types[0])] + rest;
      }
    }
  }

  /** The sentences the explanation joins: the known-type sentences, or the
      single default sentence when there are none, cut to three. */
  function ExplanationParts(types: seq<string>): (r: seq<string>)
    ensures 1 <= |r| <= MaxSentences
    ensures r == [ElevatedText] <==> CountOf(types, IsKnownType) == 0
    ensures CountOf(types, IsKnownType) > 0 ==>
      r == Take(MapSeq(Filter(types, IsKnownType), KnownSentence), MaxSentences)
  {
    var parts := Sentences(types);
    SentencesOfKnown(types);
    if parts == [] then [ElevatedText]
    else
      assert ElevatedText !in parts;
      assert parts[0] in parts;
      Take(parts, MaxSentences)
  }

  /** `_generate_fallback_explanation`: a missing score reads as 0; below 3
      the fixed low-risk sentence, otherwise up to three signal sentences
      joined by spaces. */
  function FallbackExplanation(riskScore: Option<real>, types: seq<string>): (r: string)
    ensures riskScore.GetOr(0.0) < LowRiskBelow ==> r == LowRiskText
    ensures riskScore.GetOr(0.0) >= LowRiskBelow && CountOf(types, IsKnownType) == 0 ==> r == ElevatedText
    ensures riskScore.GetOr(0.0) >= LowRiskBelow && CountOf(types, IsKnownType) > 0 ==>
      r == Join(Take(MapSeq(Filter(types, IsKnownType), KnownSentence), MaxSentences), " ")
  {
    if riskScore.GetOr(0.0) < LowRiskBelow then LowRiskText
    else Join(ExplanationParts(types), " ")
  }

  /** The type name a signal carries in the analyzer's output. */
  function TypeName(s: Signal): (r: string)
    ensures IsKnownType(r)
  {
    match s
    case SharedDevice(_, _) => "shared_device"
    case SharedIp(_, _) => "shared_ip"
    case Structuring(_, _) => "structuring"
    case CircularFlow(_) => "circular_flow"
  }

  /** The fallback explanation of an analyzer account context. */
  function ExplainContext(c: AccountContext): string {
    FallbackExplanation(Some(c.riskScore), MapSeq(c.signals, TypeName))
  }

  /** An account the analyzer scores at 3 or more is explained by its own
      signals, never by the generic sentence: a positive score needs a
      signal, and every analyzer signal has a known type. */
  lemma ScoredContextNamesSignals(g: FraudGraph.Graph, sigs: Signals, id: FraudGraph.NodeId)
    requires id in g.nodes
    requires RiskScore(g, sigs, id) >= LowRiskBelow
    ensures var c := AccountContextOf(g, sigs, id).value;
      var parts := ExplanationParts(MapSeq(c.signals, TypeName));
      && ExplainContext(c) == Join(parts, " ")
      && |parts| == (if |c.signals| < 3 then |c.signals| else 3)
      && parts[0] == KnownSentence(TypeName(c.signals[0]))
  {
    var c := AccountContextOf(g, sigs, id).value;
    var types := MapSeq(c.signals, TypeName);
    KeepKnown(types);
    SentencesOfKnown(types);
  }

  /** A filter keeps every type the analyzer emits. */
  lemma KeepKnown(types: seq<string>)
    requires forall i :: 0 <= i < |types| ==> IsKnownType(types[i])
    ensures Filter(types, IsKnownType) == types
    ensures CountOf(types, IsKnownType) == |types|
  {
    KeepEvery(types, IsKnownType);
  }

  // ---------------------------------------------------------------------
  // Compliance fallback

  datatype Topic = KycTopic | AmlTopic | GeneralTopic

  const KycKeywords: seq<string> := ["kyc", "know your customer", "identification"]
  const AmlKeywords: seq<string> := ["aml", "money laundering", "laundering"]

  /** Keyword routing on the lower-cased question: KYC first, then AML,
      otherwise the general answer. */
  function TopicOf(question: string): (t: Topic)
    ensures t == KycTopic <==> ContainsAny(ToLower(question), KycKeywords)
    ensures t == AmlTopic <==> !ContainsAny(ToLower(question), KycKeywords) && ContainsAny(ToLower(question), AmlKeywords)
  {
    var q := ToLower(question);
    if ContainsAny(q, KycKeywords) then KycTopic
    else if ContainsAny(q, AmlKeywords) then AmlTopic
    else GeneralTopic
  }

  /** The countries with canned answers. */
  datatype CannedCountry = Canada | UnitedStates

  function CannedCountryOf(country: string): (r: Option<CannedCountry>)
    ensures r == Some(Canada) <==> country == "Canada"
    ensures r == Some(UnitedStates) <==> country == "United States"
  {
    if country == "Canada" then Some(Canada)
    else if country == "United States" then Some(UnitedStates)
    else None
  }

  /** Which answer is given: a canned country's answer for a topic, or the
      generic answer naming any other country. */
  datatype Answer = Canned(country: CannedCountry, topic: Topic) | Generic(name: string)

  /** Routing of `_get_fallback_compliance_response`: a canned country
      answers by topic (each has a KYC, an AML and a default answer); any
      other country has only the generic default, which every topic falls
      back to. */
  function ChooseAnswer(country: string, question: string): (a: Answer)
    ensures CannedCountryOf(country).None? ==> a == Generic(country)
    ensures CannedCountryOf(country).Some? ==> a.Canned? && a.country == CannedCountryOf(country).value
  {
    match CannedCountryOf(country)
    case Some(c) => Canned(c, TopicOf(question))
    case None => Generic(country)
  }

  /** The text of each answer. */
  function AnswerText(a: Answer): string {
    match a
    case Canned(Canada, KycTopic) =>
      "Canada's KYC regulations are governed by FINTRAC (Financial Transactions and Reports Analysis Centre). Key requirements include: customer identification, beneficial ownership verification, ongoing monitoring, and suspicious transaction reporting. Financial institutions must verify identity using government-issued ID and maintain records for 5 years."
    case Canned(Canada, AmlTopic) =>
      "Canada's AML framework is overseen by FINTRAC under the Proceeds of Crime (Money Laundering) and Terrorist Financing Act (PCMLTFA). Requirements include: risk-based approach, customer due diligence, transaction monitoring, and reporting suspicious activities (STRs) and large cash transactions (LCTRs) over $10,000 CAD."
    case Canned(Canada, GeneralTopic) =>
      "Canada's financial compliance is regulated by FINTRAC. Key areas include KYC (Know Your Customer), AML (Anti-Money Laundering), and CTF (Counter-Terrorist Financing). Financial institutions must implement risk-based programs, verify customer identity, monitor transactions, and report suspicious activities."
    case Canned(UnitedStates, KycTopic) =>
      "US KYC regulations are enforced by FinCEN under the Bank Secrecy Act (BSA). Requirements include Customer Identification Program (CIP), Customer Due Diligence (CDD), and Enhanced Due Diligence (EDD) for high-risk customers. Beneficial ownership rules require identifying individuals owning 25%+ of entities."
    case Canned(UnitedStates, AmlTopic) =>
      "US AML compliance is governed by FinCEN and enforced through the Bank Secrecy Act (BSA) and USA PATRIOT Act. Requirements include: AML program, SAR filing for suspicious activities, CTR filing for transactions over $10,000, and OFAC sanctions screening."
    case Canned(UnitedStates, GeneralTopic) =>
      "US financial compliance is overseen by FinCEN, OCC, and FDIC. Key regulations include the Bank Secrecy Act (BSA), USA PATRIOT Act, and OFAC sanctions. Financial institutions must implement comprehensive AML/KYC programs, file SARs and CTRs, and screen against sanctions lists."
    case Generic(country) =>
      country + "'s financial compliance typically includes KYC (customer identification), AML (transaction monitoring), and regulatory reporting requirements. Specific regulations vary by jurisdiction. Consult local regulatory authorities for detailed requirements."
  }

  /** `_get_fallback_compliance_response`. */
  function ComplianceFallback(country: string, question: string): string {
    AnswerText(ChooseAnswer(country, question))
  }

  /** For a country with canned answers, a question with a KYC keyword gets
      the KYC answer even when it also mentions AML, one with only an AML
      keyword the AML answer, and any other the default; every other
      country gets its generic answer whatever the question. */
  lemma ComplianceRouting(country: string, question: string)
    ensures var q := ToLower(question);
      var a := ChooseAnswer(country, question);
      && (a.Canned? <==> country == "Canada" || country == "United States")
      && (a.Canned? ==> (a.topic == KycTopic <==> ContainsAny(q, KycKeywords)))
      && (a.Canned? ==> (a.topic == AmlTopic <==> !ContainsAny(q, KycKeywords) && ContainsAny(q, AmlKeywords)))
      && (a.Generic? ==> a.name == country)
  {
  }

  /** Lower-casing twice is lower-casing once. */
  lemma ToLowerIdempotent(s: string)
    ensures ToLower(ToLower(s)) == ToLower(s)
  {
  }

  /** Routing ignores letter case: a question and its lower-cased form get
      the same answer. */
  lemma ComplianceIgnoresCase(country: string, question: string)
    ensures ChooseAnswer(country, ToLower(question)) == ChooseAnswer(country, question)
  {
    ToLowerIdempotent(question);
    assert TopicOf(ToLower(question)) == TopicOf(question);
  }

  /** A question naming "know your customer" is routed to KYC. */
  lemma KnowYourCustomerIsKyc(question: string)
    requires Contains(ToLower(question), "know your customer")
    ensures TopicOf(question) == KycTopic
  {
    assert KycKeywords[1] == "know your customer";
  }
}
