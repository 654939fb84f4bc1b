/** Ordered keyword groups: the shape shared by the canned-reply selector and
    the smart-suggestion selector. Each group is a list of keywords joined
    by `||` and an answer; the groups are tried top to bottom and the first
    one with a keyword in the text decides. */
module Keywords {
  import opened Common
  import opened Text

  /** One `if (t.includes(k1) || t.includes(k2) || ...) return answer;` step. */
  datatype Rule<+T> = Rule(keywords: seq<string>, answer: T)

  /** `t.includes(k1) || t.includes(k2) || ...`, evaluated left to right. */
  predicate Mentions(text: string, keywords: seq<string>)
    decreases |keywords|
  {
    |keywords| > 0 && (Includes(text, keywords[0]) || Mentions(text, keywords[1..]))
  }

  /** The `||` chain holds exactly when one of its keywords occurs. */
  lemma {:induction false} MentionsIff(text: string, keywords: seq<string>)
    ensures Mentions(text, keywords) <==> exists i :: 0 <= i < |keywords| && Includes(text, keywords[i])
    decreases |keywords|
  {
    if |keywords| > 0 {
      MentionsIff(text, keywords[1..]);
      if Mentions(text, keywords[1..]) {
        var i :| 0 <= i < |keywords[1..]| && Includes(text, keywords[1..][i]);
        assert Includes(text, keywords[i + 1]);
      }
      if exists i :: 0 <= i < |keywords| && Includes(text, keywords[i]) {
        var i :| 0 <= i < |keywords| && Includes(text, keywords[i]);
        if i > 0 {
          assert keywords[1..][i - 1] == keywords[i];
        }
      }
    }
  }

  /** Whether group `rule` fires on `text`. */
  predicate Fires<T>(rule: Rule<T>, text: string) {
    Mentions(text, rule.keywords)
  }

  /** The index of the first group that fires on `text`, if any. */
  function FirstMatch<T>(rules: seq<Rule<T>>, text: string): (r: Option<nat>)
    ensures r.Some? ==> r.value < |rules| && Fires(rules[r.value], text)
    ensures r.Some? ==> forall j :: 0 <= j < r.value ==> !Fires(rules[j], text)
    ensures r.None? <==> forall j :: 0 <= j < |rules| ==> !Fires(rules[j], text)
    decreases |rules|
  {
    if |rules| == 0 then None
    else if Fires(rules[0], text) then Some(0)
    else
      match FirstMatch(rules[1..], text)
      case None => None
      case Some(k) => Some(k + 1)
  }

  /** The answer of the first group that fires, or `fallback` when none does. */
  function Select<T>(rules: seq<Rule<T>>, text: string, fallback: T): T {
    match FirstMatch(rules, text)
    case Some(k) => rules[k].answer
    case None => fallback
  }

  /** First-match priority: group `k` decides exactly when it fires and no
      earlier group does. */
  lemma FirstMatchIff<T>(rules: seq<Rule<T>>, text: string, k: nat)
    requires k < |rules|
    ensures FirstMatch(rules, text) == Some(k)
      <==> Fires(rules[k], text) && forall j :: 0 <= j < k ==> !Fires(rules[j], text)
  {
  }
}
