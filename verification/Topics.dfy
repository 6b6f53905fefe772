// mqtt/topic.go: rewriting MQTT topics and filters to NATS subjects, and what the rewriting preserves.
module Topics {
  import opened Strconv

  function TopicRune(c: char): char {
    if c == '.' then '/' else if c == '/' then '.' else c
  }

  function FilterRune(c: char): char {
    match c
    case '.' => '/'
    case '/' => '.'
    case '*' => '+'
    case '+' => '*'
    case '#' => '>'
    case '>' => '#'
    case _ => c
  }

  function Rewrite(m: char -> char, s: string): (t: string)
    ensures |t| == |s|
  {
    if s == "" then "" else [m(s[0])] + Rewrite(m, s[1..])
  }

  lemma RewriteFrom(m: char -> char, s: string, i: nat, w: string)
    requires i < |s|
    ensures w + Rewrite(m, s[i..]) == w + [m(s[i])] + Rewrite(m, s[i + 1..])
  {
    assert s[i..][1..] == s[i + 1..];
  }

  lemma RewriteNothing(m: char -> char)
    ensures Rewrite(m, "") == ""
  {
  }

  method ToNATS(mqttTopic: string) returns (w: string)
    ensures w == Rewrite(TopicRune, mqttTopic)
  {
    hide Rewrite;
    w := "";
    assert mqttTopic[0..] == mqttTopic;
    for i := 0 to |mqttTopic|
      invariant w + Rewrite(TopicRune, mqttTopic[i..]) == Rewrite(TopicRune, mqttTopic)
    {
      var c := mqttTopic[i];
      if c == '.' { c := '/'; } else if c == '/' { c := '.'; }
      RewriteFrom(TopicRune, mqttTopic, i, w);
      w := w + [c];
    }
    assert mqttTopic[|mqttTopic|..] == "" && Rewrite(TopicRune, "") == "" by { RewriteNothing(TopicRune); }
  }

  method ToNATSSubscription(mqttSub: string) returns (w: string)
    ensures w == Rewrite(FilterRune, mqttSub)
  {
    hide Rewrite;
    w := "";
    assert mqttSub[0..] == mqttSub;
    for i := 0 to |mqttSub|
      invariant w + Rewrite(FilterRune, mqttSub[i..]) == Rewrite(FilterRune, mqttSub)
    {
      var c := mqttSub[i];
      match c {
        case '.' => c := '/';
        case '/' => c := '.';
        case '*' => c := '+';
        case '+' => c := '*';
        case '#' => c := '>';
        case '>' => c := '#';
        case _ =>
      }
      RewriteFrom(FilterRune, mqttSub, i, w);
      w := w + [c];
    }
    assert mqttSub[|mqttSub|..] == "" && Rewrite(FilterRune, "") == "" by { RewriteNothing(FilterRune); }
  }

  /** FromNATS delegates to ToNATS, FromNATSSubscription to ToNATSSubscription: both rewrites undo themselves. */
  lemma {:induction false} RewriteTwice(m: char -> char, s: string)
    requires m == TopicRune || m == FilterRune
    ensures Rewrite(m, Rewrite(m, s)) == s
  {
    if s != "" {
      RewriteTwice(m, s[1..]);
      assert Rewrite(m, s)[1..] == Rewrite(m, s[1..]);
      assert m(m(s[0])) == s[0];
      assert [s[0]] + s[1..] == s;
    }
  }

  function RewriteAll(m: char -> char, levels: seq<string>): (r: seq<string>)
    ensures |r| == |levels|
  {
    seq(|levels|, i requires 0 <= i < |levels| => Rewrite(m, levels[i]))
  }

  lemma RewriteAllCons(m: char -> char, head: string, tail: seq<string>)
    ensures RewriteAll(m, [head] + tail) == [Rewrite(m, head)] + RewriteAll(m, tail)
  {
  }

  /** The MQTT levels of a name become the NATS tokens of the rewritten name. */
  lemma {:induction false} RewriteSplit(m: char -> char, s: string)
    requires m == TopicRune || m == FilterRune
    ensures Split(Rewrite(m, s), '.') == RewriteAll(m, Split(s, '/'))
  {
    if s == "" {
      assert RewriteAll(m, [""]) == [""];
    } else {
      RewriteSplit(m, s[1..]);
      var rest := Split(s[1..], '/');
      var done := Split(Rewrite(m, s[1..]), '.');
      RewriteSplitStep(m, s);
      if s[0] == '/' {
        RewriteAllCons(m, "", rest);
      } else {
        var level := [s[0]] + rest[0];
        assert level[1..] == rest[0];
        RewriteAllCons(m, level, rest[1..]);
        assert done[1..] == RewriteAll(m, rest[1..]);
      }
    }
  }

  lemma RewriteSplitStep(m: char -> char, s: string)
    requires m == TopicRune || m == FilterRune
    requires s != ""
    ensures var done := Split(Rewrite(m, s[1..]), '.');
            Split(Rewrite(m, s), '.') == if s[0] == '/' then [""] + done else [[m(s[0])] + done[0]] + done[1..]
  {
    assert Rewrite(m, s)[1..] == Rewrite(m, s[1..]);
    assert m(s[0]) == '.' <==> s[0] == '/';
  }

  // ---- what a match is, on each side

  /** Section 4.7.1 of MQTT 3.1.1, level by level. */
  predicate LevelsMatch(filter: seq<string>, topic: seq<string>) {
    if filter == [] then topic == []
    else if filter == ["#"] then true
    else topic != [] && (filter[0] == "+" || filter[0] == topic[0]) && LevelsMatch(filter[1..], topic[1..])
  }

  /** Section 4.7.2: a filter that starts with a wildcard does not match a topic that starts with $. */
  predicate DollarExcluded(filter: string, topic: string) {
    Split(filter, '/')[0] in {"+", "#"} && topic != "" && topic[0] == '$'
  }

  predicate MqttMatches(filter: string, topic: string) {
    LevelsMatch(Split(filter, '/'), Split(topic, '/')) && !DollarExcluded(filter, topic)
  }

  /** '*' is one token, a final '>' is one or more tokens. */
  predicate TokensMatch(pattern: seq<string>, subject: seq<string>) {
    if pattern == [] then subject == []
    else if pattern == [">"] then subject != []
    else subject != [] && (pattern[0] == "*" || pattern[0] == subject[0]) && TokensMatch(pattern[1..], subject[1..])
  }

  /** NATS: no subject, with wildcards or without, has an empty token. */
  predicate NatsMatches(pattern: string, subject: string) {
    var p, s := Split(pattern, '.'), Split(subject, '.');
    "" !in p && "" !in s && TokensMatch(p, s)
  }

  predicate NameLevel(level: string) { '+' !in level && '#' !in level }

  /** Section 4.7.1: a wildcard stands alone in its level, and # is last. */
  predicate ValidLevels(levels: seq<string>) {
    forall i :: 0 <= i < |levels| ==>
      NameLevel(levels[i]) || levels[i] == "+" || (levels[i] == "#" && i == |levels| - 1)
  }

  predicate ValidFilter(filter: string) { ValidLevels(Split(filter, '/')) }

  /** Section 3.3.2.1: a topic name holds no wildcard. */
  predicate ValidTopic(topic: string) { NameLevel(topic) }

  predicate HasNatsWildcard(s: string) { '*' in s || '>' in s }

  /** The filter ends in "/#" and the topic is as deep as what stands before it. */
  predicate ParentOfHash(filter: seq<string>, topic: seq<string>) {
    |filter| == |topic| + 1 && filter[|topic|] == "#"
  }

  /** What translation loses: "/#" against its parent, literal NATS wildcards in the filter, and empty levels. */
  predicate Lost(filter: string, topic: string) {
    var f, t := Split(filter, '/'), Split(topic, '/');
    ParentOfHash(f, t) || HasNatsWildcard(filter) || "" in f || "" in t
  }

  lemma {:induction false} RewriteAt(m: char -> char, s: string, i: nat)
    requires i < |s|
    ensures Rewrite(m, s)[i] == m(s[i])
  {
    if i > 0 { RewriteAt(m, s[1..], i - 1); }
  }

  /** Which characters change places, one by one: no other character is touched. */
  lemma RewrittenCharacters(s: string, i: nat)
    requires i < |s|
    ensures Rewrite(TopicRune, s)[i] == if s[i] == '/' then '.' else if s[i] == '.' then '/' else s[i]
    ensures Rewrite(FilterRune, s)[i]
         == if s[i] == '/' then '.' else if s[i] == '.' then '/' else if s[i] == '+' then '*' else if s[i] == '*' then '+'
            else if s[i] == '#' then '>' else if s[i] == '>' then '#' else s[i]
  {
    RewriteAt(TopicRune, s, i);
    RewriteAt(FilterRune, s, i);
  }

  /** A level without wildcards of either kind is rewritten as a part of a topic is. */
  lemma {:induction false} PlainLevelRewrites(level: string)
    requires NameLevel(level) && !HasNatsWildcard(level)
    ensures Rewrite(FilterRune, level) == Rewrite(TopicRune, level)
  {
    if level != "" {
      forall c | c in level[1..] ensures c !in {'+', '#', '*', '>'} { assert c in level; }
      PlainLevelRewrites(level[1..]);
      assert level[0] in level;
    }
  }

  /** A literal '*' or '>' becomes an MQTT wildcard character, which no topic holds. */
  lemma LiteralDiffers(level: string, name: string)
    requires NameLevel(name) && HasNatsWildcard(level)
    ensures Rewrite(FilterRune, level) != Rewrite(TopicRune, name)
  {
    var i :| 0 <= i < |level| && (level[i] == '*' || level[i] == '>');
    RewriteAt(FilterRune, level, i);
    if |name| == |level| {
      RewriteAt(TopicRune, name, i);
      assert name[i] in name;
    }
  }

  lemma SingleRewrites(level: string)
    ensures Rewrite(FilterRune, level) == "*" <==> level == "+"
    ensures Rewrite(FilterRune, level) == ">" <==> level == "#"
  {
    if |level| == 1 {
      RewriteAt(FilterRune, level, 0);
      assert level == [level[0]];
    }
  }

  /** One level of a filter and of a topic match after rewriting exactly when they did before and hold no literal wildcard. */
  lemma LevelAgrees(level: string, name: string)
    requires (NameLevel(level) || level == "+") && (NameLevel(name) || !HasNatsWildcard(level))
    ensures (Rewrite(FilterRune, level) == "*" || Rewrite(FilterRune, level) == Rewrite(TopicRune, name)) <==>
            (level == "+" || level == name) && !HasNatsWildcard(level)
  {
    SingleRewrites(level);
    if level == "+" {
    } else if HasNatsWildcard(level) {
      LiteralDiffers(level, name);
    } else {
      PlainLevelRewrites(level);
      RewriteTwice(TopicRune, level);
      RewriteTwice(TopicRune, name);
    }
  }

  predicate AnyLiteral(filter: seq<string>) { exists i :: 0 <= i < |filter| && HasNatsWildcard(filter[i]) }

  lemma AnyLiteralCons(filter: seq<string>)
    requires filter != []
    ensures AnyLiteral(filter) <==> HasNatsWildcard(filter[0]) || AnyLiteral(filter[1..])
  {
    assert filter == [filter[0]] + filter[1..];
  }

  predicate AllNames(topic: seq<string>) { forall i :: 0 <= i < |topic| ==> NameLevel(topic[i]) }

  lemma {:induction false} LevelsAgree(filter: seq<string>, topic: seq<string>)
    requires ValidLevels(filter) && (AllNames(topic) || !AnyLiteral(filter))
    ensures TokensMatch(RewriteAll(FilterRune, filter), RewriteAll(TopicRune, topic)) <==>
            LevelsMatch(filter, topic) && !ParentOfHash(filter, topic) && !AnyLiteral(filter)
  {
    var p, s := RewriteAll(FilterRune, filter), RewriteAll(TopicRune, topic);
    if filter == ["#"] {
      SingleRewrites("#");
    } else if filter != [] {
      SingleRewrites(filter[0]);
      assert filter[0] == "#" ==> |filter| == 1;
      if topic != [] {
        LevelAgrees(filter[0], topic[0]);
        assert p[1..] == RewriteAll(FilterRune, filter[1..]) && s[1..] == RewriteAll(TopicRune, topic[1..]);
        AnyLiteralCons(filter);
        LevelsAgree(filter[1..], topic[1..]);
      }
    }
  }

  lemma EmptyLevels(m: char -> char, levels: seq<string>)
    ensures "" in RewriteAll(m, levels) <==> "" in levels
  {
    var r := RewriteAll(m, levels);
    if "" in levels {
      var i :| 0 <= i < |levels| && levels[i] == "";
      assert r[i] == "";
    }
    if "" in r {
      var i :| 0 <= i < |r| && r[i] == "";
      assert levels[i] == "";
    }
  }

  /** What a string holds, its levels hold. */
  lemma LevelsHold(s: string)
    ensures HasNatsWildcard(s) <==> AnyLiteral(Split(s, '/'))
    ensures NameLevel(s) ==> AllNames(Split(s, '/'))
  {
    SplitKeeps(s, '/');
    if HasNatsWildcard(s) {
      var c :| c in s && (c == '*' || c == '>');
      var k :| 0 <= k < |Split(s, '/')| && c in Split(s, '/')[k];
    }
  }

  /**
   * For every filter that MQTT allows, the translated pair matches in NATS exactly when the pair matches level by level
   * in MQTT and nothing is lost. A topic with '+' or '#', which MQTT forbids, is covered where the filter holds no
   * literal '*' or '>'.
   */
  lemma TranslationPreservesMatching(filter: string, topic: string)
    requires ValidFilter(filter) && (ValidTopic(topic) || !HasNatsWildcard(filter))
    ensures NatsMatches(Rewrite(FilterRune, filter), Rewrite(TopicRune, topic)) <==>
            LevelsMatch(Split(filter, '/'), Split(topic, '/')) && !Lost(filter, topic)
  {
    var f, t := Split(filter, '/'), Split(topic, '/');
    RewriteSplit(FilterRune, filter);
    RewriteSplit(TopicRune, topic);
    LevelsHold(filter);
    LevelsHold(topic);
    LevelsAgree(f, t);
    EmptyLevels(FilterRune, f);
    EmptyLevels(TopicRune, t);
  }

  /**
   * NATS and MQTT disagree on a translated pair exactly when the levels match and either something is lost in
   * translation or MQTT excludes a topic that starts with $, but not both.
   */
  lemma AgreementIsExact(filter: string, topic: string)
    requires ValidFilter(filter) && (ValidTopic(topic) || !HasNatsWildcard(filter))
    ensures (NatsMatches(Rewrite(FilterRune, filter), Rewrite(TopicRune, topic)) != MqttMatches(filter, topic)) <==>
            LevelsMatch(Split(filter, '/'), Split(topic, '/')) && Lost(filter, topic) != DollarExcluded(filter, topic)
  {
    TranslationPreservesMatching(filter, topic);
  }

  lemma {:induction false} SelfMatch(levels: seq<string>)
    ensures LevelsMatch(levels, levels)
  {
    if levels != [] && levels != ["#"] { SelfMatch(levels[1..]); }
  }

  /** A filter that holds a literal '*' or '>' matches no topic in NATS, though in MQTT it may match the topic of its name. */
  lemma NatsWildcardLoses(filter: string, topic: string)
    requires ValidFilter(filter) && ValidTopic(topic) && HasNatsWildcard(filter)
    ensures !NatsMatches(Rewrite(FilterRune, filter), Rewrite(TopicRune, topic))
    ensures LevelsMatch(Split(filter, '/'), Split(filter, '/'))
  {
    TranslationPreservesMatching(filter, topic);
    SelfMatch(Split(filter, '/'));
  }

  predicate Disagree(filter: string, topic: string) {
    NatsMatches(Rewrite(FilterRune, filter), Rewrite(TopicRune, topic)) != MqttMatches(filter, topic)
  }

  /** One pair for each kind of disagreement, and a pair where two kinds cancel out. */
  lemma DisagreementsExist()
    ensures MqttMatches("a/#", "a") && Disagree("a/#", "a")
    ensures MqttMatches("a*", "a*") && Disagree("a*", "a*")
    ensures MqttMatches("/a", "/a") && Disagree("/a", "/a")
    ensures !MqttMatches("+", "$a") && Disagree("+", "$a")
    ensures !MqttMatches("+/#", "$a") && !Disagree("+/#", "$a")
  {
    hide Disagree, MqttMatches, Split;
    TwoLevels("a", "#");
    TwoLevels("", "a");
    TwoLevels("+", "#");
    assert "a" + "/" + "#" == "a/#" && "" + "/" + "a" == "/a" && "+" + "/" + "#" == "+/#";
    SplitPlain("a", '/');
    SplitPlain("a*", '/');
    SplitPlain("$a", '/');
    SplitPlain("+", '/');
    assert '*' in "a*" && "" in ["", "a"];
    PairDecides("a/#", "a", ["a", "#"], ["a"]);
    PairDecides("a*", "a*", ["a*"], ["a*"]);
    PairDecides("/a", "/a", ["", "a"], ["", "a"]);
    PairDecides("+", "$a", ["+"], ["$a"]);
    PairDecides("+/#", "$a", ["+", "#"], ["$a"]);
    SelfMatch(["a*"]);
    SelfMatch(["", "a"]);
    assert ["a", "#"][1..] == ["#"] && ["+", "#"][1..] == ["#"] && ["+"][1..] == [] == ["$a"][1..];
  }

  lemma TwoLevels(a: string, b: string)
    requires '/' !in a && '/' !in b
    ensures Split(a + "/" + b, '/') == [a, b]
  {
    SplitCons(a, b, '/');
    SplitPlain(b, '/');
  }

  lemma PairDecides(filter: string, topic: string, f: seq<string>, t: seq<string>)
    requires Split(filter, '/') == f && Split(topic, '/') == t && ValidLevels(f) && ValidTopic(topic)
    ensures MqttMatches(filter, topic) <==> LevelsMatch(f, t) && !DollarExcluded(filter, topic)
    ensures DollarExcluded(filter, topic) <==> f[0] in {"+", "#"} && topic != "" && topic[0] == '$'
    ensures Disagree(filter, topic) <==>
            LevelsMatch(f, t) && (ParentOfHash(f, t) || HasNatsWildcard(filter) || "" in f || "" in t) != DollarExcluded(filter, topic)
  {
    AgreementIsExact(filter, topic);
  }

  /** Splitting drops separators and nothing else. */
  lemma {:induction false} SplitKeeps(s: string, sep: char)
    ensures forall c :: c in s && c != sep ==> exists k :: 0 <= k < |Split(s, sep)| && c in Split(s, sep)[k]
    ensures forall k, c :: 0 <= k < |Split(s, sep)| && c in Split(s, sep)[k] ==> c in s
  {
    if s != "" {
      SplitKeeps(s[1..], sep);
      var rest, parts := Split(s[1..], sep), Split(s, sep);
      forall c | c in s && c != sep ensures exists k :: 0 <= k < |parts| && c in parts[k] {
        if c == s[0] {
          assert c in parts[0];
        } else {
          assert c in s[1..];
          var k :| 0 <= k < |rest| && c in rest[k];
          if s[0] == sep { assert parts[k + 1] == rest[k]; } else if k > 0 { assert parts[k] == rest[k]; }
          assert c in parts[if s[0] == sep then k + 1 else k];
        }
      }
      forall k, c | 0 <= k < |parts| && c in parts[k] ensures c in s {
        if s[0] == sep {
          if k > 0 { assert parts[k] == rest[k - 1]; assert c in s[1..]; }
        } else if k > 0 {
          assert parts[k] == rest[k];
          assert c in s[1..];
        } else if c != s[0] {
          assert c in rest[0];
          assert c in s[1..];
        }
      }
    }
  }

  lemma NotSingle(s: string, c: char)
    requires c !in s
    ensures s != [c]
  {
    assert c in [c];
  }

  /** A pattern whose tokens are not wildcards matches the subject equal to it and no other; with empty tokens not even that. */
  lemma LiteralPattern(pattern: string, subject: string)
    requires '*' !in pattern && '>' !in pattern
    ensures NatsMatches(pattern, subject) <==> pattern == subject && "" !in Split(pattern, '.')
  {
    var p := Split(pattern, '.');
    SplitKeeps(pattern, '.');
    forall i | 0 <= i < |p| ensures p[i] != "*" && p[i] != ">" {
      NotSingle(p[i], '*');
      NotSingle(p[i], '>');
    }
    LiteralTokens(p, Split(subject, '.'));
    JoinSplit(pattern, '.');
    JoinSplit(subject, '.');
  }

  lemma {:induction false} LiteralTokens(p: seq<string>, s: seq<string>)
    requires forall i :: 0 <= i < |p| ==> p[i] != "*" && p[i] != ">"
    ensures TokensMatch(p, s) <==> p == s
  {
    if p != [] && s != [] {
      LiteralTokens(p[1..], s[1..]);
      assert p == [p[0]] + p[1..] && s == [s[0]] + s[1..];
    }
  }
}
