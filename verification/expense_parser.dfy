/**
 * Turning the completion service's reply into an expense, or into nothing.
 *
 * The reply text may wrap the JSON in a fenced code block with a `json`
 * tag, in a fence without a tag, or not at all; the fence is cut away with
 * `split` and `strip`, the remaining text goes to `json.loads`, and the
 * parsed object becomes an expense with defaults for missing fields.  The
 * completion call and `json.loads` are outside the model: the first is a
 * reply that may be missing (the call failed), the second a function that
 * may fail.  Every failure ends in "no expense".
 *
 * Line numbers in the comments refer to `parse_expense_with_langchain` in
 * controllers/message_controller.py.
 */
module ExpenseParser {
  import opened Wrappers
  import opened PyValues
  import opened PyStrings

  const JsonFence: string := "```json"
  const Fence: string := "```"

  /** The text holds no backtick at all (ordinary prose or a JSON body). */
  predicate NoBacktick(s: string) {
    forall i :: 0 <= i < |s| ==> s[i] != '`'
  }

  /** Stripping never creates an occurrence of a pattern. */
  lemma StripAvoids(s: string, pat: string)
    requires !Contains(s, pat)
    ensures !Contains(Strip(s), pat)
  {
    var a, r := StripStart(s), Strip(s);
    assert r == s[a..a + |r|];
    InfixAvoids(s, pat, a, a + |r|);
  }

  /**
   * The text handed to `json.loads`: after the first "```json" up to the
   * next fence when the reply has a tagged fence; between the first two
   * fences (or to the end) when it has an untagged one; the whole reply
   * otherwise; and whitespace-trimmed in every case.  The second piece of
   * each split exists because the guard saw the separator, and no fence
   * survives in the result.
   */
  function ExtractJson(content: string): (r: string)
    ensures !Contains(r, Fence)
    ensures Trimmed(r)
  {
    if Contains(content, JsonFence) then
      var piece := Split(Split(content, JsonFence)[1], Fence)[0];
      StripAvoids(piece, Fence);
      Strip(piece)
    else if Contains(content, Fence) then
      var piece := Split(content, Fence)[1];
      StripAvoids(piece, Fence);
      Strip(piece)
    else
      StripAvoids(content, Fence);
      Strip(content)
  }

  /** When `s` is cut at `k`, its first occurrence of `pat` survives only if it fits before the cut. */
  lemma FirstInPrefix(s: string, pat: string, k: nat)
    requires |pat| > 0 && k <= |s|
    ensures FirstOrEnd(s[..k], pat)
         == if FirstOrEnd(s, pat) + |pat| <= k then FirstOrEnd(s, pat) else k
  {
    var j := FirstOrEnd(s, pat);
    forall i: int ensures OccursAt(s[..k], pat, i) <==> (OccursAt(s, pat, i) && i + |pat| <= k) {
      if 0 <= i && i + |pat| <= k {
        SliceOfSlice(s, 0, k, i, i + |pat|);
        assert s[..k] == s[0..k];
      }
    }
    if j + |pat| <= k {
      assert OccursAt(s, pat, j);
      assert Find(s[..k], pat) == Some(j) by { FindIsFirst(s[..k], pat, j); }
    } else {
      forall i: int ensures !OccursAt(s[..k], pat, i) {
        if OccursAt(s, pat, i) {
          FirstOrEndMinimal(s, pat, i);
        }
      }
      FindNone(s[..k], pat);
    }
  }

  /** No occurrence comes before the first one. */
  lemma FirstOrEndMinimal(s: string, pat: string, i: int)
    requires OccursAt(s, pat, i)
    ensures FirstOrEnd(s, pat) <= i
  {
  }

  /** An occurrence with none before it is the one `find` returns. */
  lemma FindIsFirst(s: string, pat: string, i: nat)
    requires OccursAt(s, pat, i)
    requires forall j :: 0 <= j < i ==> !OccursAt(s, pat, j)
    ensures Find(s, pat) == Some(i)
  {
    var r := Find(s, pat);
    assert r.Some?;
    assert !(r.value < i);
    assert !(i < r.value);
  }

  /** With no occurrence anywhere, `find` finds nothing. */
  lemma FindNone(s: string, pat: string)
    requires forall j :: !OccursAt(s, pat, j)
    ensures Find(s, pat).None?
  {
  }

  /**
   * Precise reading of the tagged branch (lines 210-211): the result runs
   * from after the first "```json" to the next fence, except that it stops
   * earlier at a second "```json" that begins one or two characters after
   * that fence (a run of four or five backticks before `json`), keeping the
   * stray backticks.
   */
  lemma ExtractTagged(content: string)
    requires Contains(content, JsonFence)
    ensures var rest := content[Find(content, JsonFence).value + |JsonFence|..];
            var j := FirstOrEnd(rest, Fence);
            var k := FirstOrEnd(rest, JsonFence);
            && j <= k
            && ExtractJson(content) == Strip(rest[..if j + |Fence| <= k then j else k])
            && (k < j + 1 || j + 3 <= k ==> ExtractJson(content) == Strip(rest[..j]))
  {
    var rest := content[Find(content, JsonFence).value + |JsonFence|..];
    var j, k := FirstOrEnd(rest, Fence), FirstOrEnd(rest, JsonFence);
    SplitSecond(content, JsonFence);
    assert Split(content, JsonFence)[1] == rest[..k];
    FirstInPrefix(rest, Fence, k);
    FenceNoLaterThanTag(rest);
    var cut := if j + |Fence| <= k then j else k;
    assert Split(rest[..k], Fence)[0] == rest[..k][..cut];
    assert rest[..k][..cut] == rest[..cut];
  }

  /** Every "```json" starts with a fence, so the first fence comes no later than the first tag. */
  lemma FenceNoLaterThanTag(s: string)
    ensures FirstOrEnd(s, Fence) <= FirstOrEnd(s, JsonFence)
  {
    var k := FirstOrEnd(s, JsonFence);
    if k < |s| {
      assert OccursAt(s, JsonFence, k);
      assert s[k..k + 3] == JsonFence[..3];
      assert OccursAt(s, Fence, k);
    }
  }

  /** The untagged branch (lines 212-213): between the first two fences, or to the end. */
  lemma ExtractUntagged(content: string)
    requires !Contains(content, JsonFence) && Contains(content, Fence)
    ensures var rest := content[Find(content, Fence).value + |Fence|..];
            ExtractJson(content) == Strip(rest[..FirstOrEnd(rest, Fence)])
  {
    SplitSecond(content, Fence);
  }

  /** A reply with no fence (lines 214-215) is only stripped. */
  lemma ExtractBare(content: string)
    requires !Contains(content, Fence)
    ensures ExtractJson(content) == Strip(content)
  {
    TaggedFenceIsFence(content);
  }

  /** A tagged fence is in particular a fence. */
  lemma TaggedFenceIsFence(content: string)
    ensures Contains(content, JsonFence) ==> Contains(content, Fence)
  {
    if Contains(content, JsonFence) {
      assert JsonFence == Fence + "json";
      ContainsPrefixOfPattern(content, Fence, "json");
    }
  }

  /** Occurrences of a pattern that starts with a backtick skip over backtick-free text. */
  lemma FindAfterPlainPrefix(p: string, x: string, pat: string)
    requires NoBacktick(p) && |pat| > 0 && pat[0] == '`'
    ensures Find(p + x, pat) == match Find(x, pat) case Some(i) => Some(|p| + i) case None => None
  {
    forall j: int ensures OccursAt(p + x, pat, j) <==> OccursAt(x, pat, j - |p|) {
      if 0 <= j < |p| && j + |pat| <= |p + x| {
        assert (p + x)[j..j + |pat|][0] == p[j];
      }
      if |p| <= j && j + |pat| <= |p + x| {
        assert (p + x)[j..j + |pat|] == x[j - |p|..j - |p| + |pat|];
      }
    }
    match Find(x, pat)
    case Some(i) =>
      FindIsFirst(p + x, pat, |p| + i);
    case None =>
      FindNone(p + x, pat);
  }

  /**
   * The usual tagged reply: prose without backticks, "```json", a
   * backtick-free body, a closing fence and any trailer that does not start
   * with a backtick.  The body, trimmed, is what gets parsed.
   */
  lemma TaggedBlock(p: string, b: string, q: string)
    requires NoBacktick(p) && NoBacktick(b) && (q == [] || q[0] != '`')
    ensures ExtractJson(p + JsonFence + b + Fence + q) == Strip(b)
  {
    var content := p + JsonFence + b + Fence + q;
    TaggedOpening(p, b, q);
    ExtractTagged(content);
    TaggedBody(b, q);
  }

  /** The first "```json" is the one after the prose, and the rest of the reply follows it. */
  lemma TaggedOpening(p: string, b: string, q: string)
    requires NoBacktick(p)
    ensures Find(p + JsonFence + b + Fence + q, JsonFence) == Some(|p|)
    ensures (p + JsonFence + b + Fence + q)[|p| + |JsonFence|..] == b + (Fence + q)
  {
    var x := JsonFence + b + Fence + q;
    assert p + JsonFence + b + Fence + q == p + x;
    assert OccursAt(x, JsonFence, 0);
    LeadingMatchAfterPlain(p, x, JsonFence);
    assert p + x == (p + JsonFence) + (b + (Fence + q));
  }

  /**
   * In a backtick-free body, a closing fence and a tail that does not start
   * with a backtick: the body ends at the fence, and no "```json" begins one
   * or two characters after it.
   */
  lemma TaggedBody(b: string, q: string)
    requires NoBacktick(b) && (q == [] || q[0] != '`')
    ensures FirstOrEnd(b + (Fence + q), Fence) == |b|
    ensures var k := FirstOrEnd(b + (Fence + q), JsonFence); k < |b| + 1 || |b| + 3 <= k
    ensures (b + (Fence + q))[..|b|] == b
  {
    assert OccursAt(Fence + q, Fence, 0);
    LeadingMatchAfterPlain(b, Fence + q, Fence);
    NoTagRightAfterFence(q);
    FindAfterPlainPrefix(b, Fence + q, JsonFence);
  }

  /** A match at the very start of `y`, after backtick-free text `p`, is the first match in `p + y`. */
  lemma LeadingMatchAfterPlain(p: string, y: string, pat: string)
    requires NoBacktick(p) && |pat| > 0 && pat[0] == '`' && OccursAt(y, pat, 0)
    ensures Find(p + y, pat) == Some(|p|) && FirstOrEnd(p + y, pat) == |p|
  {
    FindIsFirst(y, pat, 0);
    FindAfterPlainPrefix(p, y, pat);
  }

  /** After a fence followed by a non-backtick, "```json" cannot start one or two characters in. */
  lemma NoTagRightAfterFence(q: string)
    requires q == [] || q[0] != '`'
    ensures FirstOrEnd(Fence + q, JsonFence) != 1 && FirstOrEnd(Fence + q, JsonFence) != 2
  {
    var y := Fence + q;
    assert !OccursAt(y, JsonFence, 1) by {
      if 8 <= |y| {
        assert y[1..8][2] == q[0] != JsonFence[2];
      }
    }
    assert !OccursAt(y, JsonFence, 2) by {
      if 9 <= |y| {
        assert y[2..9][1] == q[0] != JsonFence[1];
      }
    }
  }

  /** A fenced backtick-free body that does not start with `j` holds no "```json". */
  lemma NoTagInFencedBody(b: string)
    requires NoBacktick(b) && (b == [] || b[0] != 'j')
    ensures Find(Fence + b + Fence, JsonFence).None?
  {
    var x := Fence + b + Fence;
    forall j: int ensures !OccursAt(x, JsonFence, j) {
      if 0 <= j && j + |JsonFence| <= |x| {
        var w := x[j..j + |JsonFence|];
        if j < 3 {
          assert w[3 - j] == x[3] == b[0] != JsonFence[3 - j];
        } else {
          assert w[0] == x[j] == b[j - 3] != JsonFence[0];
        }
      }
    }
    FindNone(x, JsonFence);
  }

  /**
   * The usual untagged reply: prose without backticks, "```", a
   * backtick-free body not starting with `j` (so no "```json" forms), and a
   * closing fence.  The body, trimmed, is what gets parsed.
   */
  lemma UntaggedBlock(p: string, b: string)
    requires NoBacktick(p) && NoBacktick(b) && (b == [] || b[0] != 'j')
    ensures ExtractJson(p + Fence + b + Fence) == Strip(b)
  {
    var content := p + Fence + b + Fence;
    UntaggedFences(p, b);
    ExtractUntagged(content);
    AfterOpeningFence(p, b);
    BodyBeforeFence(b);
  }

  lemma AfterOpeningFence(p: string, b: string)
    ensures (p + Fence + b + Fence)[|p| + |Fence|..] == b + Fence
  {
    assert p + Fence + b + Fence == (p + Fence) + (b + Fence);
  }

  /** In prose, fence, body, fence: no tagged fence, and the first fence opens the block. */
  lemma UntaggedFences(p: string, b: string)
    requires NoBacktick(p) && NoBacktick(b) && (b == [] || b[0] != 'j')
    ensures !Contains(p + Fence + b + Fence, JsonFence)
    ensures Find(p + Fence + b + Fence, Fence) == Some(|p|)
  {
    var x := Fence + b + Fence;
    assert p + Fence + b + Fence == p + x;
    NoTagInFencedBody(b);
    FindAfterPlainPrefix(p, x, JsonFence);
    assert OccursAt(x, Fence, 0);
    FindIsFirst(x, Fence, 0);
    FindAfterPlainPrefix(p, x, Fence);
  }

  /** A backtick-free body followed by a fence ends where the fence starts. */
  lemma BodyBeforeFence(b: string)
    requires NoBacktick(b)
    ensures FirstOrEnd(b + Fence, Fence) == |b|
    ensures (b + Fence)[..|b|] == b
  {
    assert OccursAt(Fence, Fence, 0);
    FindIsFirst(Fence, Fence, 0);
    FindAfterPlainPrefix(b, Fence, Fence);
  }

  /** A reply with no backticks is parsed whole, after trimming. */
  lemma BareReply(s: string)
    requires NoBacktick(s)
    ensures ExtractJson(s) == Strip(s)
  {
    forall j: int ensures !OccursAt(s, Fence, j) {
      if 0 <= j && j + |Fence| <= |s| {
        assert s[j..j + |Fence|][0] == s[j];
      }
    }
    FindNone(s, Fence);
    ExtractBare(s);
  }

  /**
   * The quirk of the tagged branch: a second "```json" fence written with
   * four backticks leaves a stray backtick in the text handed to the parser.
   */
  lemma TaggedStrayBacktick(b: string)
    requires NoBacktick(b)
    ensures ExtractJson(JsonFence + b + "`" + JsonFence) == Strip(b + "`")
  {
    var content := JsonFence + b + "`" + JsonFence;
    StrayOpening(b);
    ExtractTagged(content);
    StrayBody(b);
  }

  lemma StrayOpening(b: string)
    ensures Find(JsonFence + b + "`" + JsonFence, JsonFence) == Some(0)
    ensures (JsonFence + b + "`" + JsonFence)[|JsonFence|..] == b + ("`" + JsonFence)
  {
    var content := JsonFence + b + "`" + JsonFence;
    assert OccursAt(content, JsonFence, 0);
    FindIsFirst(content, JsonFence, 0);
    assert content == JsonFence + (b + ("`" + JsonFence));
  }

  /** After the body, the fence comes first and the second "```json" one character later. */
  lemma StrayBody(b: string)
    requires NoBacktick(b)
    ensures FirstOrEnd(b + ("`" + JsonFence), Fence) == |b|
    ensures FirstOrEnd(b + ("`" + JsonFence), JsonFence) == |b| + 1
    ensures (b + ("`" + JsonFence))[..|b| + 1] == b + "`"
  {
    var y := "`" + JsonFence;
    assert OccursAt(y, Fence, 0);
    FindIsFirst(y, Fence, 0);
    FindAfterPlainPrefix(b, y, Fence);
    assert !OccursAt(y, JsonFence, 0) by { assert y[3] == '`'; }
    assert OccursAt(y, JsonFence, 1);
    FindIsFirst(y, JsonFence, 1);
    FindAfterPlainPrefix(b, y, JsonFence);
  }

  /** The expense the controller receives: the three fields of `parse_expense_with_langchain`'s dictionary. */
  datatype ExpenseData = ExpenseData(description: Value, amount: Value, category: Value)

  const UnknownExpense: string := "Unknown expense"
  const OtherCategory: string := "Other"

  /**
   * Lines 225-233: a parsed object is an expense exactly when it is a
   * dictionary whose `is_expense` is present and truthy (`.get` on any other
   * value raises, and the error is swallowed).  Each field present in the
   * object is copied unchanged, even when it is null; a missing description
   * becomes "Unknown expense", a missing amount 0 and a missing category "Other".
   */
  function ToExpenseData(parsed: Value): (r: Option<ExpenseData>)
    ensures r.Some? <==> parsed.Dict? && "is_expense" in parsed.entries && Truthy(parsed.entries["is_expense"])
    ensures r.Some? ==> var m := parsed.entries;
      && r.value.description == (if "description" in m then m["description"] else Str(UnknownExpense))
      && r.value.amount == (if "amount" in m then m["amount"] else Int(0))
      && r.value.category == (if "category" in m then m["category"] else Str(OtherCategory))
  {
    match parsed
    case Dict(m) =>
      if !Truthy(Get(m, "is_expense", Bool(false))) then None
      else Some(ExpenseData(Get(m, "description", Str(UnknownExpense)), Get(m, "amount", Int(0)),
                            Get(m, "category", Str(OtherCategory))))
    case _ => None
  }

  /**
   * `parse_expense_with_langchain`, given the completion service's reply
   * (None when the call failed) and `json.loads` (None when it raises).
   * The result is an expense exactly when there was a reply, the text
   * extracted from it parsed, and the parsed value is an expense object;
   * it is then that object's expense.  Every failure is "no expense".
   */
  function ParseExpense(reply: Option<string>, loads: string -> Option<Value>): (r: Option<ExpenseData>)
    ensures r.Some? <==> reply.Some? && loads(ExtractJson(reply.value)).Some?
                         && ToExpenseData(loads(ExtractJson(reply.value)).value).Some?
    ensures r.Some? ==> r == ToExpenseData(loads(ExtractJson(reply.value)).value)
  {
    match reply
    case None => None
    case Some(content) =>
      match loads(ExtractJson(content))
      case None => None
      case Some(parsed) => ToExpenseData(parsed)
  }
}
