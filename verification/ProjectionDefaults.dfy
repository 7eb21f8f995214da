// The wording and limits a product starts from (src/flops_agent/engine/compaction.py).
module ProjectionDefaults {
  import opened Prelude
  import opened Messages
  import opened Trim
  import opened Projection

  /** The two fixed texts in front of metadata and summary may be any. */
  function DefaultConfig(metadataPrefix: string, summaryTag: string): (cfg: Config) {
    Config({}, true, Budget(4_000, 1_500, 1_500), true, 3, 16_000, 24, 400, true, 600, true, true, 4_000,
           TextWording(), ToolWording(), StubWording(), metadataPrefix, summaryTag)
  }

  function TextWording(): (w: Wording)
    ensures |w.omitted.before| + |w.omitted.after| <= 120
  {
    Wording(Notice("\n...[middle omitted ", " chars \U{00B7} full content retained server-side]...\n"),
            Notice("\n...[truncated ", " chars \U{00B7} full content retained server-side]"))
  }

  function ToolWording(): (w: Wording)
    ensures |w.omitted.before| + |w.omitted.after| <= 120
  {
    Wording(Notice("\n...[middle omitted ", " chars \U{2014} re-run the tool for the full result]...\n"),
            Notice("\n...[truncated ", " chars \U{2014} re-run the tool for full output]"))
  }

  function StubWording(): (n: Notice)
    ensures |n.before| + |n.after| <= 200
  {
    Notice("[old tool result elided \U{00B7} ~", " chars \U{00B7} re-run the tool to retrieve the full output]")
  }

  predicate Limits(cfg: Config) {
    && cfg.toolTrim && cfg.standard == Budget(4_000, 1_500, 1_500) && cfg.fullMax == 16_000 && cfg.stubMin == 400
    && cfg.grading && cfg.fullCount == 3 && cfg.userTrim && cfg.userMax == 600
    && |cfg.textWording.omitted.before| + |cfg.textWording.omitted.after| <= 120
    && |cfg.toolWording.omitted.before| + |cfg.toolWording.omitted.after| <= 120
    && |cfg.stubWording.before| + |cfg.stubWording.after| <= 200
  }

  lemma DefaultLimits(prefix: string, tag: string)
    ensures Limits(DefaultConfig(prefix, tag)) && DefaultConfig(prefix, tag).exempt == {}
  {
  }

  lemma LimitsSuffice(cfg: Config, content: string, tier: Tier)
    requires Limits(cfg) && |content| < Pow10(33)
    ensures LimitsFit(cfg, content) && cfg.stubMin >= |cfg.stubWording.Filled(|content|)|
    ensures |ToolText(cfg, content, tier, "")| <= WholeUpTo(cfg, tier)
  {
    assert |Decimal(0)| == 1;
    WidthIff(|content|, 33);
    ToolTextFits(cfg, content, tier, "");
  }

  /** With the defaults every tool result that is not exempt fits its tier's limit, of less than 10^33
      characters. */
  lemma DefaultsFit(prefix: string, tag: string, content: string, tier: Tier)
    requires |content| < Pow10(33)
    ensures var r := ToolText(DefaultConfig(prefix, tag), content, tier, "");
            var limit := match tier case Full => 16_000 case Standard => 4_000 case Stub => 400;
            |r| <= limit && (|content| <= limit ==> r == content)
  {
    DefaultLimits(prefix, tag);
    LimitsSuffice(DefaultConfig(prefix, tag), content, tier);
  }

  /** With the defaults the three newest results are shown in full, and those with 24 or more newer ones as stubs. */
  lemma DefaultTierByAge(prefix: string, tag: string, h: seq<Message>, i: nat)
    requires i < |h|
    ensures var newer, t := |Newer(h, i + 1)|, TierOf(DefaultConfig(prefix, tag), ToolsFrom(h, i + 1));
            (t.Full? <==> newer < 3) && (t.Stub? <==> newer >= 24)
  {
    TierByAge(DefaultConfig(prefix, tag), h, i);
  }

  /** And so does every user text that is not a notice. */
  lemma DefaultUserTextFits(prefix: string, tag: string, m: Message)
    requires m.User? && !m.notice && |m.content| < Pow10(33)
    ensures |UserText(DefaultConfig(prefix, tag), m, DefaultConfig(prefix, tag).userMax)| <= 600
  {
    DefaultLimits(prefix, tag);
    UserTextFits(DefaultConfig(prefix, tag), m);
  }

  lemma UserTextFits(cfg: Config, m: Message)
    requires Limits(cfg) && m.User? && !m.notice && |m.content| < Pow10(33)
    ensures |UserText(cfg, m, cfg.userMax)| <= 600
  {
    WidthIff(|m.content|, 33);
    TrimFitsIff(cfg.textWording, m.content, 600);
  }

  /** One exempt tool and one result of 16001 characters: more is sent than the compaction judgment weighs. */
  lemma ExemptResultBreaksRuler(prefix: string, tag: string) returns (cfg: Config, h: seq<Message>)
    ensures cfg == DefaultConfig(prefix, tag).(exempt := {"read"}) && |h| == 2
    ensures Sum(Weights(cfg, h)[0..2]) < SizeAll(Expanded(cfg, h, 0, 2, map[]))
  {
    DefaultLimits(prefix, tag);
    cfg := DefaultConfig(prefix, tag).(exempt := {"read"});
    h := [Assistant("", "", [Call("a", "read", "")]), Tool("a", seq(16_001, _ => 'x'))];
    LongResultBreaksRuler(cfg, h);
  }

  lemma LongResultBreaksRuler(cfg: Config, h: seq<Message>)
    requires Limits(cfg) && cfg.exempt == {"read"}
    requires |h| == 2 && h[0] == Assistant("", "", [Call("a", "read", "")])
    requires h[1].Tool? && h[1].callId == "a" && |h[1].content| == 16_001
    ensures Sum(Weights(cfg, h)[0..2]) < SizeAll(Expanded(cfg, h, 0, 2, map[]))
  {
    NewestResult(cfg, h);
    WellBelow(16_001);
    LimitsSuffice(cfg, h[1].content, Full);
    TrimmedResultBreaksRuler(cfg, h);
  }

  lemma TrimmedResultBreaksRuler(cfg: Config, h: seq<Message>)
    requires |h| == 2 && !h[0].Tool? && Exempt(cfg, h, 1) && !ShownWhole(cfg, h, 1)
    requires LimitsFit(cfg, h[1].content) && cfg.stubMin >= |cfg.stubWording.Filled(|h[1].content|)|
    ensures Sum(Weights(cfg, h)[0..2]) < SizeAll(Expanded(cfg, h, 0, 2, map[]))
  {
    OneRulerIff(cfg, h, 0, 2);
  }

  lemma WellBelow(n: nat)
    requires n < 100_000
    ensures n < Pow10(33)
  {
    assert Pow10(5) == 100_000;
    WidthIff(n, 5);
    WidthIff(n, 33);
  }

  lemma NewestResult(cfg: Config, h: seq<Message>)
    requires Limits(cfg) && cfg.exempt == {"read"}
    requires |h| == 2 && h[0] == Assistant("", "", [Call("a", "read", "")]) && h[1].Tool? && h[1].callId == "a"
    ensures Exempt(cfg, h, 1) && TierOf(cfg, ToolsFrom(h, 2)) == Full
  {
    assert Parent(h[..1], "a") == Some(Call("a", "read", ""));
  }
}
