/**
 Suggested questions (`generate_suggested_questions`, app.py): a prompt built from the
 start of the first three documents, one call to the language model, and a parser
 for the numbered list it answers with. The model call is a parameter.
 */
module Suggestions {
  import opened Wrappers
  import opened Text
  import opened Messages

  /** Only `_docs[:3]` are read, and the joined text is cut with `[:4000]`. */
  const MaxDocuments := 3
  const MaxPromptChars := 4000

  const PromptHead := "Based on the following text, generate 3 concise, insightful questions a user might want to ask. The questions should be distinct.\n\nText:\n\"\"\""
  const PromptTail := "\"\"\"\n\nQuestions:"

  /** Python's slice `s[:n]`. */
  function Take<T>(s: seq<T>, n: nat): (r: seq<T>)
    ensures |r| == if |s| <= n then |s| else n
    ensures r == s[..|r|]
  {
    if |s| <= n then s else s[..n]
  }

  /** Slicing past the first `n` elements of a longer sequence never looks at what follows them. */
  lemma TakeOfExtension<T>(s: seq<T>, t: seq<T>, n: nat)
    requires n <= |s|
    ensures Take(s + t, n) == Take(s, n)
  {
    assert (s + t)[..n] == s[..n];
  }

  /** `[doc.page_content for doc in docs]`. */
  function PageContents(docs: seq<Document>): (texts: seq<string>)
    ensures |texts| == |docs|
    ensures forall i :: 0 <= i < |docs| ==> texts[i] == docs[i].pageContent
    decreases |docs|
  {
    if docs == [] then [] else [docs[0].pageContent] + PageContents(docs[1..])
  }

  /** `" ".join(doc.page_content for doc in _docs[:3])[:4000]`. */
  function CombinedContent(docs: seq<Document>): (c: string)
    ensures var joined := Join(PageContents(Take(docs, MaxDocuments)), " ");
      && |c| <= MaxPromptChars
      && StartsWith(joined, c)
      && (|c| == MaxPromptChars || c == joined)
  {
    Take(Join(PageContents(Take(docs, MaxDocuments)), " "), MaxPromptChars)
  }

  function SuggestionPrompt(docs: seq<Document>): string {
    PromptHead + CombinedContent(docs) + PromptTail
  }

  /** What `llm.invoke(prompt)` yields, the model's construction included: a reply, or an exception. */
  datatype LlmOutcome = Reply(content: string) | LlmFailed

  // ---------------------------------------------------------------------------
  // The matcher for re.findall(r'\d+\.\s*(.*?)(?=\n\d+\.|$)', text, re.DOTALL).
  // Each function looks at the remaining input only, since no part of the pattern
  // looks behind the current position.
  // ---------------------------------------------------------------------------

  predicate IsDigit(c: char) {
    '0' <= c <= '9'
  }

  /** `\d+\.` matches at the start of `t`: a run of digits, then a dot. */
  predicate NumberDot(t: string) {
    var n := CountWhile(t, IsDigit);
    0 < n < |t| && t[n] == '.'
  }

  /** `(?=\n\d+\.|$)` holds at the start of `t`; without MULTILINE, `$` also matches just before a final newline. */
  predicate LookaheadHolds(t: string) {
    t == "" || t == "\n" || (t[0] == '\n' && NumberDot(t[1..]))
  }

  /** How far the lazy `(.*?)` extends: the first position at which the look-ahead holds. */
  function LookaheadDistance(v: string): (e: nat)
    ensures e <= |v| && LookaheadHolds(v[e..])
    ensures forall k :: 0 <= k < e ==> !LookaheadHolds(v[k..])
    decreases |v|
  {
    if LookaheadHolds(v) then 0
    else
      var e := 1 + LookaheadDistance(v[1..]);
      assert forall k :: 1 <= k <= |v| ==> v[k..] == v[1..][k - 1..];
      e
  }

  /** Where the group starts: after the maximal run of digits, the dot and the maximal run of whitespace. */
  function GroupStart(t: string): (g: nat)
    requires NumberDot(t)
    ensures var n := CountWhile(t, IsDigit);
      && n + 1 <= g <= |t|
      && (forall k :: n + 1 <= k < g ==> IsSpace(t[k]))
      && (g == |t| || !IsSpace(t[g]))
  {
    var n := CountWhile(t, IsDigit);
    var c := CountWhile(t[n + 1..], IsSpace);
    assert forall k :: n + 1 <= k < n + 1 + c ==> t[k] == t[n + 1..][k - n - 1];
    n + 1 + c
  }

  /**
   One match attempt at the start of `t`: the captured group and the input after the
   match. The digits can only end where the dot is, and the look-ahead always holds at
   the end of input, so the greedy `\s*` is never given back.
   */
  function MatchQuestion(t: string): (m: Option<(string, string)>)
    ensures m.Some? <==> NumberDot(t)
    ensures m.Some? ==>
              && |m.value.0| + |m.value.1| < |t|
              && t[|t| - |m.value.0| - |m.value.1|..] == m.value.0 + m.value.1
    ensures m.Some? ==>
              var g := GroupStart(t);
              && m.value.0 + m.value.1 == t[g..]
              && LookaheadHolds(m.value.1)
              && forall k :: 0 <= k < |m.value.0| ==> !LookaheadHolds(t[g..][k..])
  {
    var n := CountWhile(t, IsDigit);
    if n == 0 || n >= |t| || t[n] != '.' then None
    else
      var v := t[GroupStart(t)..];
      var e := LookaheadDistance(v);
      assert v == v[..e] + v[e..];
      Some((v[..e], v[e..]))
  }

  /** `re.findall`: try at each position, and after a match continue where it ended. */
  function FindAllQuestions(t: string): seq<string>
    decreases |t|
  {
    if t == "" then []
    else match MatchQuestion(t)
      case Some((group, rest)) => [group] + FindAllQuestions(rest)
      case None => FindAllQuestions(t[1..])
  }

  /** Every found question, stripped. */
  function StripAll(found: seq<string>): (r: seq<string>)
    ensures |r| == |found|
    ensures forall i :: 0 <= i < |found| ==> r[i] == Strip(found[i])
    decreases |found|
  {
    if found == [] then [] else [Strip(found[0])] + StripAll(found[1..])
  }

  /** `[q.strip() for q in questions if q.strip()]`. */
  function CleanQuestions(found: seq<string>): (r: seq<string>)
    ensures forall q :: q in r <==> q != "" && q in StripAll(found)
    ensures forall q :: q in r ==> Strip(q) == q
    decreases |found|
  {
    if found == [] then []
    else
      var s := Strip(found[0]);
      StripIdempotent(found[0]);
      var tail := CleanQuestions(found[1..]);
      assert forall q :: q in StripAll(found) <==> q == s || q in StripAll(found[1..]) by {
        assert StripAll(found) == [s] + StripAll(found[1..]);
      }
      if s != "" then [s] + tail else tail
  }

  /** The clean-up treats the found questions one at a time, keeping their order and duplicates. */
  lemma {:induction false} CleanQuestionsAppend(a: seq<string>, b: seq<string>)
    ensures CleanQuestions(a + b) == CleanQuestions(a) + CleanQuestions(b)
    decreases |a|
  {
    if a != [] {
      assert (a + b)[0] == a[0];
      assert (a + b)[1..] == a[1..] + b;
      CleanQuestionsAppend(a[1..], b);
    } else {
      assert a + b == b;
    }
  }

  /** One found question is kept, stripped, exactly when its strip is non-empty. */
  lemma CleanQuestionsSingle(q: string)
    ensures CleanQuestions([q]) == if Strip(q) != "" then [Strip(q)] else []
  {
    assert [q][1..] == [];
  }

  /**
   `generate_suggested_questions`: no documents or any failure gives no suggestions; for a
   reply, exactly the non-empty stripped matches are suggested.
   */
  function GenerateSuggestedQuestions(docs: seq<Document>, invoke: string -> LlmOutcome): (qs: seq<string>)
    ensures docs == [] ==> qs == []
    ensures invoke(SuggestionPrompt(docs)).LlmFailed? ==> qs == []
    ensures docs != [] && invoke(SuggestionPrompt(docs)).Reply? ==>
      forall q :: q in qs <==> q != "" && q in StripAll(FindAllQuestions(invoke(SuggestionPrompt(docs)).content))
    ensures forall q :: q in qs ==> q != "" && Strip(q) == q
  {
    if docs == [] then []
    else match invoke(SuggestionPrompt(docs))
      case LlmFailed => []
      case Reply(content) => CleanQuestions(FindAllQuestions(content))
  }

  // ---------------------------------------------------------------------------
  // A reply that is a numbered list of plain questions ("1. ...\n2. ...\n3. ..."),
  // the shape the pattern of `re.findall` expects, parses back to exactly its questions.
  // ---------------------------------------------------------------------------

  /** A question on one line, with no whitespace around it. */
  predicate PlainQuestion(q: string) {
    && q != "" && !IsSpace(q[0]) && !IsSpace(q[|q| - 1])
    && forall k :: 0 <= k < |q| ==> q[k] != '\n'
  }

  function NumberedLine(n: nat, q: string): string
    requires 1 <= n <= 9
  {
    [(48 + n) as char] + ". " + q
  }

  /** The reply "n. q1\nn+1. q2\n..." listing the questions `qs` from number `n` on. */
  function NumberedList(qs: seq<string>, n: nat): string
    requires 1 <= n && n + |qs| <= 10
    decreases |qs|
  {
    if |qs| == 0 then ""
    else if |qs| == 1 then NumberedLine(n, qs[0])
    else NumberedLine(n, qs[0]) + "\n" + NumberedList(qs[1..], n + 1)
  }

  /** A reply that is a numbered list "1. q1\n2. q2\n3. q3", the shape the pattern expects. */
  function NumberedReply(qs: seq<string>): string
    requires |qs| <= 9
  {
    NumberedList(qs, 1)
  }

  /** The look-ahead never holds before a character other than a line break, so the group grows by one. */
  lemma LookaheadStep(v: string)
    requires v != "" && v[0] != '\n'
    ensures LookaheadDistance(v) == 1 + LookaheadDistance(v[1..])
  {
    assert !LookaheadHolds(v);
  }

  /** On a line with no line break the group runs to the end of the line, where the look-ahead holds. */
  lemma {:induction false} LookaheadAfterLine(q: string, tail: string)
    requires forall k :: 0 <= k < |q| ==> q[k] != '\n'
    requires LookaheadHolds(tail)
    ensures LookaheadDistance(q + tail) == |q|
    decreases |q|
  {
    if q != "" {
      var v := q + tail;
      assert v[0] == q[0];
      assert v[1..] == q[1..] + tail;
      LookaheadStep(v);
      LookaheadAfterLine(q[1..], tail);
    } else {
      assert q + tail == tail;
    }
  }

  /** One numbered line followed by a look-ahead position matches, capturing exactly the question. */
  lemma MatchNumberedLine(n: nat, q: string, tail: string)
    requires 1 <= n <= 9 && PlainQuestion(q) && LookaheadHolds(tail)
    ensures MatchQuestion(NumberedLine(n, q) + tail) == Some((q, tail))
  {
    var t := NumberedLine(n, q) + tail;
    assert t[0] == (48 + n) as char && t[1] == '.';
    assert CountWhile(t, IsDigit) == 1;
    var u := t[2..];
    assert u == " " + q + tail;
    assert CountWhile(u, IsSpace) == 1;
    var v := u[1..];
    assert v == q + tail;
    LookaheadAfterLine(q, tail);
    assert v[..|q|] == q && v[|q|..] == tail;
  }

  /** A numbered list starts with `\d+\.`. */
  lemma NumberedListStartsNumbered(qs: seq<string>, n: nat)
    requires 1 <= n && n + |qs| <= 10 && |qs| > 0
    ensures NumberDot(NumberedList(qs, n))
  {
    var t := NumberedList(qs, n);
    assert t[0] == (48 + n) as char && t[1] == '.';
    assert CountWhile(t, IsDigit) == 1;
  }

  /** After a match, `re.findall` records the group and carries on with the input after the match. */
  lemma FindAllAfterMatch(t: string, group: string, rest: string)
    requires MatchQuestion(t) == Some((group, rest))
    ensures FindAllQuestions(t) == [group] + FindAllQuestions(rest)
  {
  }

  /** A line break that does not start a match is skipped. */
  lemma FindAllSkipsLineBreak(rest: string)
    ensures FindAllQuestions("\n" + rest) == FindAllQuestions(rest)
  {
    var t := "\n" + rest;
    assert CountWhile(t, IsDigit) == 0;
    assert MatchQuestion(t) == None;
    assert t[1..] == rest;
  }

  /** A numbered line, a line break and the next numbered line: the first question is found, and scanning resumes at the next line. */
  lemma FindAllLineThenNext(n: nat, q: string, rest: string)
    requires 1 <= n <= 9 && PlainQuestion(q) && NumberDot(rest)
    ensures FindAllQuestions(NumberedLine(n, q) + "\n" + rest) == [q] + FindAllQuestions(rest)
  {
    var line := NumberedLine(n, q);
    var tail := "\n" + rest;
    assert line + "\n" + rest == line + tail;
    assert LookaheadHolds(tail) by {
      assert tail[1..] == rest;
    }
    assert FindAllQuestions(line + tail) == [q] + FindAllQuestions(tail) by {
      MatchNumberedLine(n, q, tail);
      FindAllAfterMatch(line + tail, q, tail);
    }
    assert FindAllQuestions(tail) == FindAllQuestions(rest) by {
      FindAllSkipsLineBreak(rest);
    }
  }

  lemma {:induction false} FindAllNumbered(qs: seq<string>, n: nat)
    requires 1 <= n && n + |qs| <= 10
    requires forall i :: 0 <= i < |qs| ==> PlainQuestion(qs[i])
    ensures FindAllQuestions(NumberedList(qs, n)) == qs
    decreases |qs|
  {
    if |qs| == 1 {
      var line := NumberedLine(n, qs[0]);
      assert line + "" == NumberedList(qs, n);
      assert FindAllQuestions(line + "") == [qs[0]] + FindAllQuestions("") by {
        MatchNumberedLine(n, qs[0], "");
        FindAllAfterMatch(line + "", qs[0], "");
      }
    } else if |qs| > 1 {
      var rest := NumberedList(qs[1..], n + 1);
      assert NumberedList(qs, n) == NumberedLine(n, qs[0]) + "\n" + rest;
      assert FindAllQuestions(rest) == qs[1..] by {
        FindAllNumbered(qs[1..], n + 1);
      }
      assert FindAllQuestions(NumberedList(qs, n)) == [qs[0]] + FindAllQuestions(rest) by {
        NumberedListStartsNumbered(qs[1..], n + 1);
        FindAllLineThenNext(n, qs[0], rest);
      }
      assert [qs[0]] + qs[1..] == qs;
    }
  }

  lemma {:induction false} CleanPlainQuestions(qs: seq<string>)
    requires forall i :: 0 <= i < |qs| ==> PlainQuestion(qs[i])
    ensures CleanQuestions(qs) == qs
    decreases |qs|
  {
    if qs != [] {
      NoSurroundingSpaceStrips(qs[0]);
      CleanPlainQuestions(qs[1..]);
    }
  }

  /** A reply that is a numbered list of plain questions yields exactly those questions, in order. */
  lemma SuggestionsFromNumberedReply(docs: seq<Document>, invoke: string -> LlmOutcome, qs: seq<string>)
    requires docs != [] && |qs| <= 9
    requires forall i :: 0 <= i < |qs| ==> PlainQuestion(qs[i])
    requires invoke(SuggestionPrompt(docs)) == Reply(NumberedReply(qs))
    ensures GenerateSuggestedQuestions(docs, invoke) == qs
  {
    FindAllNumbered(qs, 1);
    CleanPlainQuestions(qs);
  }

  /** Documents after the third never reach the prompt, so they cannot change the suggestions. */
  lemma OnlyFirstThreeDocumentsMatter(docs: seq<Document>, more: seq<Document>, invoke: string -> LlmOutcome)
    requires |docs| >= MaxDocuments
    ensures GenerateSuggestedQuestions(docs + more, invoke) == GenerateSuggestedQuestions(docs, invoke)
  {
    TakeOfExtension(docs, more, MaxDocuments);
  }
}
