/**
 * The search endpoint: it picks a canned reply for the query by keyword and
 * streams it back one character per event record, then one completion
 * record, then closes the stream.
 */
module SearchRoute {
  import opened Base
  import opened Strings
  import opened Wire

  /** The reply to a question about the internal regular meetings. */
  const MeetingReply: string :=
    "最近の内部定例についてお答えします。\n"
    + "\n"
    + "2024年度Q1の定例会議では、以下の重要な決定がありました：\n"
    + "\n"
    + "**主要な決定事項：**\n"
    + "• 新しい製品コンセプト「Clue.ai」の正式承認\n"
    + "• マーケティング予算を前年比30%増額\n"
    + "• 開発チームの体制を3チーム制に変更\n"
    + "\n"
    + "**技術的な決定：**\n"
    + "• React + TypeScriptでのフロントエンド統一\n"
    + "• AIチャット機能の優先実装\n"
    + "• セキュリティ監査の四半期実施\n"
    + "\n"
    + "これらの決定により、今四半期の開発方針が明確になりました。特にUI/UXの改善が重要な課題として挙げられています。"

  /** The reply to a question about technology or development. */
  const TechReply: string :=
    "技術・開発に関する情報をお調べしました。\n"
    + "\n"
    + "**現在の技術スタック：**\n"
    + "• フロントエンド: React, TypeScript, Tailwind CSS\n"
    + "• バックエンド: Next.js API Routes\n"
    + "• データベース: PostgreSQL\n"
    + "• インフラ: Vercel\n"
    + "\n"
    + "**最新の技術決定：**\n"
    + "• shadcn/uiの採用を見送り、Tailwindのみでの実装\n"
    + "• Server-Sent Eventsを使用したリアルタイム通信\n"
    + "• ローカルストレージでの状態管理\n"
    + "\n"
    + "**今後の予定：**\n"
    + "• AIモデルの統合（GPT-4o予定）\n"
    + "• データベース連携の実装\n"
    + "• パフォーマンス最適化"

  /** The fallback reply is `FallbackOpen + query + FallbackLineEnd`, a newline, then `FallbackRest`. */
  const FallbackOpen: string := "ご質問「"
  const FallbackLineEnd: string := "」についてお答えします。"
  const FallbackRest: string :=
    "\n"
    + "申し訳ございませんが、この質問に対する具体的な情報が見つかりませんでした。\n"
    + "\n"
    + "**検索のヒント：**\n"
    + "• より具体的なキーワードを使用してください\n"
    + "• 「定例」「会議」「技術」「開発」などの関連語句を含めてみてください\n"
    + "• 時期を指定すると、より正確な情報が得られます\n"
    + "\n"
    + "他にご質問がございましたら、お気軽にお聞きください。"

  function Fallback(query: string): string {
    FallbackOpen + query + FallbackLineEnd + "\n" + FallbackRest
  }

  /** `generateAIResponse`: the first keyword rule that matches wins, else the fallback echoing the query. */
  function GenerateReply(query: string): (r: string)
    ensures |r| > 0
  {
    if Contains(query, "定例") || Contains(query, "会議") then MeetingReply
    else if Contains(query, "技術") || Contains(query, "開発") then TechReply
    else Fallback(query)
  }

  /** A keyword rule: when the query includes any of the keywords, the reply is the template. */
  datatype Rule = Rule(keywords: seq<string>, template: string)

  /** The rules in priority order. */
  const ReplyRules: seq<Rule> := [Rule(["定例", "会議"], MeetingReply), Rule(["技術", "開発"], TechReply)]

  predicate Matches(rule: Rule, query: string) {
    exists k :: 0 <= k < |rule.keywords| && Contains(query, rule.keywords[k])
  }

  /** Reference reading of the lookup: the template of the first rule that matches, if any. */
  function FirstMatch(rules: seq<Rule>, query: string): (r: Option<string>)
    ensures r.None? <==> forall k :: 0 <= k < |rules| ==> !Matches(rules[k], query)
  {
    if rules == [] then None
    else if Matches(rules[0], query) then Some(rules[0].template)
    else FirstMatch(rules[1..], query)
  }

  lemma MatchesPair(rule: Rule, query: string)
    requires |rule.keywords| == 2
    ensures Matches(rule, query) <==> Contains(query, rule.keywords[0]) || Contains(query, rule.keywords[1])
  {
    if Matches(rule, query) {
      var k :| 0 <= k < 2 && Contains(query, rule.keywords[k]);
      assert k == 0 || k == 1;
    }
  }

  /** The reply is the first matching rule's template, or the fallback when no rule matches. */
  lemma GenerateReplyIsFirstMatch(query: string)
    ensures GenerateReply(query) == match FirstMatch(ReplyRules, query)
                                    case Some(t) => t
                                    case None => Fallback(query)
  {
    var meeting, tech := ReplyRules[0], ReplyRules[1];
    MatchesPair(meeting, query);
    MatchesPair(tech, query);
    assert ReplyRules[1..] == [tech];
    assert ReplyRules[1..][1..] == [];
  }

  /** Meeting keywords take priority over technology keywords. */
  lemma MeetingRuleWins(query: string)
    requires Contains(query, "定例") || Contains(query, "会議")
    ensures GenerateReply(query) == MeetingReply
  {
  }

  /** Technology keywords give the technology reply when no meeting keyword is present. */
  lemma TechRuleApplies(query: string)
    requires !Contains(query, "定例") && !Contains(query, "会議")
    requires Contains(query, "技術") || Contains(query, "開発")
    ensures GenerateReply(query) == TechReply
  {
  }

  /** The first line of `open + query + lineEnd + "\n" + rest`, when only the query could hold a newline. */
  lemma FirstLineOf(open: string, query: string, lineEnd: string, rest: string)
    requires '\n' !in open && '\n' !in query && '\n' !in lineEnd
    ensures Lines(open + query + lineEnd + "\n" + rest)[0] == open + query + lineEnd
  {
    var line := open + query + lineEnd;
    assert '\n' !in line by {
      assert forall k :: 0 <= k < |open| ==> line[k] == open[k];
      assert forall k :: |open| <= k < |open| + |query| ==> line[k] == query[k - |open|];
      assert forall k :: |open| + |query| <= k < |line| ==> line[k] == lineEnd[k - |open| - |query|];
    }
    LinesCons(line, rest);
  }

  /** With no keyword in the query, the reply is the fallback. */
  lemma FallbackWhenNoRuleMatches(query: string)
    requires !Contains(query, "定例") && !Contains(query, "会議")
    requires !Contains(query, "技術") && !Contains(query, "開発")
    ensures GenerateReply(query) == Fallback(query)
  {
  }

  /** Where the query sits in `open + query + lineEnd + "\n" + rest`. */
  lemma QuotedAt(open: string, query: string, lineEnd: string, rest: string)
    requires |lineEnd| > 0
    ensures var r := open + query + lineEnd + "\n" + rest;
            r[..|open|] == open && r[|open|..|open| + |query|] == query && r[|open| + |query|] == lineEnd[0]
  {
    var r := open + query + lineEnd + "\n" + rest;
    assert r[..|open|] == open;
    assert r[|open|..|open| + |query|] == query;
  }

  /** The fallback reply quotes the query verbatim between 「 and 」 on its first line. */
  lemma FallbackEchoesQuery(query: string)
    ensures Fallback(query)[..|FallbackOpen|] == FallbackOpen
    ensures Fallback(query)[|FallbackOpen|..|FallbackOpen| + |query|] == query
    ensures Fallback(query)[|FallbackOpen| + |query|] == '」'
    ensures '\n' !in query ==> Lines(Fallback(query))[0] == FallbackOpen + query + FallbackLineEnd
  {
    var open, lineEnd, rest := FallbackOpen, FallbackLineEnd, FallbackRest;
    assert lineEnd[0] == '」';
    QuotedAt(open, query, lineEnd, rest);
    if '\n' !in query {
      assert '\n' !in open && '\n' !in lineEnd;
      FirstLineOf(open, query, lineEnd, rest);
    }
  }

  /** One `stream` event per unit, in order. */
  function UnitEvents(units: seq<string>): (es: seq<Event>)
    ensures |es| == |units|
    ensures forall i :: 0 <= i < |units| ==> es[i] == Stream(units[i])
  {
    seq(|units|, i requires 0 <= i < |units| => Stream(units[i]))
  }

  /** The events written for a reply: one `stream` event per element of `split("")`, then `complete`. */
  function StreamEvents(reply: string): (es: seq<Event>)
    ensures |es| == |reply| + 1
  {
    UnitEvents(Units(reply)) + [Complete]
  }

  /** Exactly one `complete` event is written, and it is the last one. */
  lemma CompleteIsLastAndOnly(reply: string)
    ensures forall i :: 0 <= i < |StreamEvents(reply)| ==>
              (StreamEvents(reply)[i] == Complete <==> i == |reply|)
  {
  }

  lemma {:induction false} ContentsOfUnitEvents(units: seq<string>)
    ensures Contents(UnitEvents(units)) == Concat(units)
  {
    if units != [] {
      assert UnitEvents(units)[1..] == UnitEvents(units[1..]);
      ContentsOfUnitEvents(units[1..]);
    }
  }

  /** The stream contents reproduce the reply exactly: nothing lost, reordered or duplicated. */
  lemma ContentsOfStreamEvents(reply: string)
    ensures Contents(StreamEvents(reply)) == reply
  {
    ContentsAppend(UnitEvents(Units(reply)), [Complete]);
    ContentsOfUnitEvents(Units(reply));
    ConcatUnits(reply);
    assert Contents([Complete]) == "";
  }

  /**
   * `streamResponse`: each turn either enqueues the record for
   * `words[currentIndex]` and advances the index, or enqueues the completion
   * record and closes. The timer that re-runs the turn is the loop.
   */
  method StreamResponse(reply: string) returns (records: seq<string>)
    ensures records == Frames(StreamEvents(reply))
  {
    var words := Units(reply);
    var currentIndex := 0;
    var closed := false;
    records := [];
    while !closed
      invariant 0 <= currentIndex <= |words|
      invariant !closed ==> records == Frames(StreamEvents(reply)[..currentIndex])
      invariant closed ==> currentIndex == |words| && records == Frames(StreamEvents(reply))
      decreases |words| - currentIndex, if closed then 0 else 1
    {
      if currentIndex < |words| {
        var unit := words[currentIndex];
        records := records + [Frame(Stream(unit))];
        currentIndex := currentIndex + 1;
      } else {
        records := records + [Frame(Complete)];
        closed := true;
      }
    }
  }

  /**
   * The POST handler: the records written for a query decode back to the
   * events of its reply, whose contents are the reply.
   */
  method Post(query: string) returns (records: seq<string>)
    ensures records == Frames(StreamEvents(GenerateReply(query)))
    ensures |records| == |GenerateReply(query)| + 1
    ensures DecodeBody(Concat(records)) == StreamEvents(GenerateReply(query))
    ensures Contents(DecodeBody(Concat(records))) == GenerateReply(query)
  {
    var reply := GenerateReply(query);
    records := StreamResponse(reply);
    ConcatFrames(StreamEvents(reply));
    DecodeFrameAll(StreamEvents(reply));
    ContentsOfStreamEvents(reply);
  }
}
