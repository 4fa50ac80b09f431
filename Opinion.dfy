/**
 * The canned reply the agent gives to a question: a fixed sentence frame, an
 * optional topic clause and one perspective sentence chosen by persona.
 */
module Opinion {
  import opened Wrappers
  import opened Text

  const OptimisticStrategist := "optimistic strategist"
  const CuriousAnalyst := "curious analyst"
  const CalmSkeptic := "calm skeptic"
  const EmpatheticStoryteller := "empathetic storyteller"

  const OptimisticLine := "I see momentum building, and I would invest in practical pilots now."
  const CuriousLine := "I think the evidence points to a few promising paths worth testing next."
  const SkepticLine := "I remain cautiously optimistic, but I would watch for tradeoffs and blind spots."
  const StorytellerLine := "I feel the human impact here is crucial, and I would center real stories."

  /** The persona table, in the order the page lists it: persona key and perspective sentence. */
  const Table: seq<(string, string)> := [
    (OptimisticStrategist, OptimisticLine),
    (CuriousAnalyst, CuriousLine),
    (CalmSkeptic, SkepticLine),
    (EmpatheticStoryteller, StorytellerLine)
  ]

  /** One of the table's four keys. */
  predicate IsPersona(persona: string) {
    persona == OptimisticStrategist || persona == CuriousAnalyst ||
    persona == CalmSkeptic || persona == EmpatheticStoryteller
  }

  /** What JavaScript prints when it interpolates a missing property. */
  const Undefined := "undefined"

  /** The sentence that closes every reply. */
  const Closing := " If you want, ask a follow-up or challenge my view."

  /** Looking `key` up in a table of pairs by exact match; the first match wins. */
  function Lookup(table: seq<(string, string)>, key: string): Option<string> {
    if table == [] then None
    else if table[0].0 == key then Some(table[0].1)
    else Lookup(table[1..], key)
  }

  /** The persona's perspective sentence, or nothing for an unknown persona. */
  function Perspective(persona: string): Option<string> {
    Lookup(Table, persona)
  }

  /**
   * The table read out: each of the four personas has its own sentence, and
   * every other value finds none.
   */
  lemma PerspectiveTable(persona: string)
    ensures Perspective(persona).Some? <==> IsPersona(persona)
    ensures persona == OptimisticStrategist ==> Perspective(persona) == Some(OptimisticLine)
    ensures persona == CuriousAnalyst ==> Perspective(persona) == Some(CuriousLine)
    ensures persona == CalmSkeptic ==> Perspective(persona) == Some(SkepticLine)
    ensures persona == EmpatheticStoryteller ==> Perspective(persona) == Some(StorytellerLine)
  {
    var t1 := [(CuriousAnalyst, CuriousLine), (CalmSkeptic, SkepticLine), (EmpatheticStoryteller, StorytellerLine)];
    var t2 := [(CalmSkeptic, SkepticLine), (EmpatheticStoryteller, StorytellerLine)];
    var t3 := [(EmpatheticStoryteller, StorytellerLine)];
    assert Table[1..] == t1 && t1[1..] == t2 && t2[1..] == t3 && t3[1..] == [];
    assert Lookup(Table, persona) == if persona == OptimisticStrategist then Some(OptimisticLine) else Lookup(t1, persona);
    assert Lookup(t1, persona) == if persona == CuriousAnalyst then Some(CuriousLine) else Lookup(t2, persona);
    assert Lookup(t2, persona) == if persona == CalmSkeptic then Some(SkepticLine) else Lookup(t3, persona);
    assert Lookup(t3, persona) == if persona == EmpatheticStoryteller then Some(StorytellerLine) else Lookup([], persona);
  }

  /** The looked-up sentence as the template literal prints it. */
  function PerspectiveText(persona: string): string {
    Perspective(persona).GetOr(Undefined)
  }

  /** The topic clause: present only when the topic is a non-empty string. */
  function TopicLine(topic: string): string {
    if topic != "" then " on " + topic else ""
  }

  /** The fixed words between the agent's name and the quoted question. */
  const Lead := " here. Thanks for asking about \""

  /** The part of a reply up to and including the quoted question. */
  function Greeting(agentName: string, question: string): string {
    agentName + Lead + question + "\""
  }

  /** The part of a reply after the topic clause: the full stop, the perspective and the closing. */
  function Tail(persona: string): string {
    ". " + PerspectiveText(persona) + Closing
  }

  /** `generateOpinion(question)` read against the session's name, topic and persona. */
  function GenerateOpinion(agentName: string, topic: string, persona: string, question: string): string {
    Greeting(agentName, question) + TopicLine(topic) + Tail(persona)
  }

  /** `t` occurs in `s` starting at index `k`. */
  predicate OccursAt(s: string, t: string, k: int) {
    0 <= k && k + |t| <= |s| && s[k..k + |t|] == t
  }

  /**
   * A reply opens with the greeting and quoted question, and ends with ". ",
   * the persona's sentence and the closing invitation.
   */
  lemma ReplyFrame(agentName: string, topic: string, persona: string, question: string)
    ensures var r := GenerateOpinion(agentName, topic, persona, question);
            var g := Greeting(agentName, question);
            |r| == |g| + |TopicLine(topic)| + |Tail(persona)| &&
            OccursAt(r, g, 0) && OccursAt(r, Tail(persona), |r| - |Tail(persona)|)
  {
    var g, t, tail := Greeting(agentName, question), TopicLine(topic), Tail(persona);
    assert GenerateOpinion(agentName, topic, persona, question) == g + t + tail;
    Pieces(g, t, tail);
  }

  /**
   * Right after the quoted question the reply continues with " on " and the
   * topic exactly when the topic is non-empty; otherwise it continues with the
   * full stop.
   */
  lemma TopicClauseIff(agentName: string, topic: string, persona: string, question: string)
    ensures var r := GenerateOpinion(agentName, topic, persona, question);
            var k := |Greeting(agentName, question)|;
            (OccursAt(r, " on " + topic, k) <==> topic != "") &&
            (topic == "" ==> OccursAt(r, ". ", k))
  {
    var r := GenerateOpinion(agentName, topic, persona, question);
    var g, t, tail := Greeting(agentName, question), TopicLine(topic), Tail(persona);
    Pieces(g, t, tail);
    var k := |g|;
    if topic == "" {
      assert r == g + tail;
      var p := PerspectiveText(persona);
      Pieces(". ", p, Closing);
      assert tail[..2] == ". ";
      assert r[k..k + 2] == ". " by { Pieces(g, tail[..2], tail[2..]); assert tail == tail[..2] + tail[2..]; }
      assert r[k..k + 4][0] == '.' != (" on " + topic)[0];
    } else {
      assert r[k..k + |t|] == t;
    }
  }

  /**
   * For each of the four personas its table sentence appears verbatim in the
   * reply, right after the ". " that ends the first sentence.
   */
  lemma KnownPersonaSentence(agentName: string, topic: string, persona: string, question: string)
    ensures var r := GenerateOpinion(agentName, topic, persona, question);
            var k := |Greeting(agentName, question)| + |TopicLine(topic)| + 2;
            (persona == OptimisticStrategist ==> OccursAt(r, OptimisticLine, k)) &&
            (persona == CuriousAnalyst ==> OccursAt(r, CuriousLine, k)) &&
            (persona == CalmSkeptic ==> OccursAt(r, SkepticLine, k)) &&
            (persona == EmpatheticStoryteller ==> OccursAt(r, StorytellerLine, k))
  {
    SentenceInReply(agentName, topic, persona, question);
    PerspectiveTable(persona);
  }

  /** Whatever the persona, its printed perspective stands right after the first sentence's ". ". */
  lemma SentenceInReply(agentName: string, topic: string, persona: string, question: string)
    ensures var r := GenerateOpinion(agentName, topic, persona, question);
            var k := |Greeting(agentName, question)| + |TopicLine(topic)| + 2;
            OccursAt(r, PerspectiveText(persona), k)
  {
    var p := PerspectiveText(persona);
    var g, t := Greeting(agentName, question), TopicLine(topic);
    Regroup(g, t, ". ", p, Closing);
    Pieces(g + t + ". ", p, Closing);
  }

  /**
   * An unknown persona leaves the lookup empty and the reply carries the word
   * "undefined" where the sentence would stand.
   */
  lemma UnknownPersonaText(agentName: string, topic: string, persona: string, question: string)
    requires !IsPersona(persona)
    ensures var r := GenerateOpinion(agentName, topic, persona, question);
            var k := |Greeting(agentName, question)| + |TopicLine(topic)| + 2;
            OccursAt(r, "undefined", k) && Perspective(persona) == None
  {
    PerspectiveTable(persona);
    SentenceInReply(agentName, topic, persona, question);
  }

  /** The question can be read back from the reply: different questions give different replies. */
  lemma QuestionInjective(agentName: string, topic: string, persona: string, q1: string, q2: string)
    requires GenerateOpinion(agentName, topic, persona, q1) == GenerateOpinion(agentName, topic, persona, q2)
    ensures q1 == q2
  {
    var t, tail := TopicLine(topic), Tail(persona);
    Regroup6(agentName, Lead, q1, "\"", t, tail);
    Regroup6(agentName, Lead, q2, "\"", t, tail);
    Pieces(agentName + Lead, q1, "\"" + t + tail);
    Pieces(agentName + Lead, q2, "\"" + t + tail);
  }

  /** The four perspective sentences have four different lengths. */
  lemma LineLengths()
    ensures |OptimisticLine| == 68 && |CuriousLine| == 72
    ensures |SkepticLine| == 80 && |StorytellerLine| == 73
  {
  }

  /** Two different known personas never give the same reply to the same question. */
  lemma PersonaInjective(agentName: string, topic: string, p1: string, p2: string, question: string)
    requires IsPersona(p1) && IsPersona(p2) && p1 != p2
    ensures GenerateOpinion(agentName, topic, p1, question) != GenerateOpinion(agentName, topic, p2, question)
  {
    LineLengths();
    PerspectiveTable(p1);
    PerspectiveTable(p2);
    assert |PerspectiveText(p1)| != |PerspectiveText(p2)|;
  }
}
