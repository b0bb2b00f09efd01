/** Mentions in message text (app/services/message_parser.py): the pattern
    `(?<!\w)#[A-Za-z][A-Za-z0-9_-]*` as a left-to-right scan. `isWord` stands for `\w`, and
    nothing here depends on which characters it takes. */
module MentionScanner {
  import opened Seqs

  predicate Letter(c: char) {
    'A' <= c <= 'Z' || 'a' <= c <= 'z'
  }

  predicate Digit(c: char) {
    '0' <= c <= '9'
  }

  predicate NameChar(c: char) {
    Letter(c) || Digit(c) || c == '_' || c == '-'
  }

  datatype Mention = Mention(text: string, name: string, order: nat, start: nat, end: nat)

  predicate StartsMention(content: string, isWord: char -> bool, i: nat) {
    && i + 1 < |content| && content[i] == '#' && Letter(content[i + 1])
    && (i > 0 ==> !isWord(content[i - 1]))
  }

  /** The mention is the longest one at its start. */
  predicate SpansMention(content: string, isWord: char -> bool, m: Mention) {
    && m.start + 1 < m.end <= |content|
    && StartsMention(content, isWord, m.start)
    && (forall j :: m.start < j < m.end ==> NameChar(content[j]))
    && (m.end < |content| ==> !NameChar(content[m.end]))
    && m.text == content[m.start..m.end]
    && m.name == content[m.start + 1..m.end]
  }

  /** The mentions of a text, in textual order: sound, complete, disjoint and numbered. */
  ghost predicate AreMentions(content: string, isWord: char -> bool, ms: seq<Mention>) {
    && (forall k :: 0 <= k < |ms| ==> SpansMention(content, isWord, ms[k]) && ms[k].order == k)
    && (forall j, k :: 0 <= j < k < |ms| ==> ms[j].end <= ms[k].start)
    && (forall i :: 0 <= i < |content| && StartsMention(content, isWord, i) ==>
        exists k :: 0 <= k < |ms| && ms[k].start == i)
  }

  /** What a scan has found when it stands at i. */
  ghost predicate ScannedTo(content: string, isWord: char -> bool, ms: seq<Mention>, i: nat) {
    && (forall k :: 0 <= k < |ms| ==> SpansMention(content, isWord, ms[k]) && ms[k].order == k && ms[k].end <= i)
    && (forall j, k :: 0 <= j < k < |ms| ==> ms[j].end <= ms[k].start)
    && (forall p :: 0 <= p < i && StartsMention(content, isWord, p) ==> exists k :: 0 <= k < |ms| && ms[k].start == p)
  }

  lemma ScanTakes(content: string, isWord: char -> bool, ms: seq<Mention>, m: Mention)
    requires ScannedTo(content, isWord, ms, m.start) && SpansMention(content, isWord, m) && m.order == |ms|
    ensures ScannedTo(content, isWord, ms + [m], m.end)
  {
    var more := ms + [m];
    assert more[|ms|].start == m.start;
    forall p | 0 <= p < m.end && StartsMention(content, isWord, p)
        ensures exists k :: 0 <= k < |more| && more[k].start == p {
      if p < m.start {
        var k :| 0 <= k < |ms| && ms[k].start == p;
        assert more[k].start == p;
      } else {
        assert !NameChar('#');
      }
    }
  }

  /** `_parse_mentions` */
  method ParseMentions(content: string, isWord: char -> bool) returns (mentions: seq<Mention>)
    ensures AreMentions(content, isWord, mentions)
  {
    mentions := [];
    var i := 0;
    while i < |content|
      invariant 0 <= i <= |content|
      invariant ScannedTo(content, isWord, mentions, i)
    {
      if !StartsMention(content, isWord, i) {
        i := i + 1;
        continue;
      }
      var end := i + 2;
      while end < |content| && NameChar(content[end])
        invariant i + 2 <= end <= |content|
        invariant forall j :: i < j < end ==> NameChar(content[j])
      {
        end := end + 1;
      }
      var mention := Mention(content[i..end], content[i + 1..end], |mentions|, i, end);
      ScanTakes(content, isWord, mentions, mention);
      mentions := mentions + [mention];
      i := end;
    }
  }

  /** A text has one list of mentions: the description above leaves nothing open. */
  lemma MentionsAreUnique(content: string, isWord: char -> bool, a: seq<Mention>, b: seq<Mention>)
    requires AreMentions(content, isWord, a) && AreMentions(content, isWord, b)
    ensures a == b
  {
    SamePrefix(content, isWord, a, b, |a|);
    SamePrefix(content, isWord, b, a, |b|);
  }

  predicate Increasing(ms: seq<Mention>) {
    forall j, k :: 0 <= j < k < |ms| ==> ms[j].start < ms[k].start
  }

  lemma MentionsIncrease(content: string, isWord: char -> bool, ms: seq<Mention>)
    requires AreMentions(content, isWord, ms)
    ensures Increasing(ms)
  {
    forall j, k | 0 <= j < k < |ms| ensures ms[j].start < ms[k].start {
      assert SpansMention(content, isWord, ms[j]);
    }
  }

  /** Behind a common prefix, the next start of one list is at or after the next of the other. */
  lemma NextStart(a: seq<Mention>, b: seq<Mention>, k: nat, m: nat)
    requires Increasing(a) && Increasing(b)
    requires k < |a| && k <= |b| && a[..k] == b[..k]
    requires m < |b| && b[m].start == a[k].start
    ensures k < |b| && b[k].start <= a[k].start
  {
    assert forall j :: 0 <= j < k ==> b[j] == b[..k][j] == a[..k][j] == a[j];
  }

  lemma StartFound(content: string, isWord: char -> bool, a: seq<Mention>, b: seq<Mention>, k: nat) returns (m: nat)
    requires AreMentions(content, isWord, a) && AreMentions(content, isWord, b) && k < |a|
    ensures m < |b| && b[m].start == a[k].start
  {
    assert SpansMention(content, isWord, a[k]);
    m :| 0 <= m < |b| && b[m].start == a[k].start;
  }

  lemma SameAt(content: string, isWord: char -> bool, a: seq<Mention>, b: seq<Mention>, k: nat)
    requires AreMentions(content, isWord, a) && AreMentions(content, isWord, b)
    requires k < |a| && k < |b| && a[k].start == b[k].start
    ensures a[k] == b[k]
  {
    SameSpan(content, isWord, a[k], b[k]);
  }

  lemma {:induction false} SamePrefix(content: string, isWord: char -> bool, a: seq<Mention>, b: seq<Mention>, n: nat)
    requires AreMentions(content, isWord, a) && AreMentions(content, isWord, b) && n <= |a|
    ensures n <= |b| && a[..n] == b[..n]
  {
    if n > 0 {
      var k := n - 1;
      SamePrefix(content, isWord, a, b, k);
      var m := StartFound(content, isWord, a, b, k);
      MentionsIncrease(content, isWord, a);
      MentionsIncrease(content, isWord, b);
      NextStart(a, b, k, m);
      var l := StartFound(content, isWord, b, a, k);
      NextStart(b, a, k, l);
      SameAt(content, isWord, a, b, k);
      PrefixGrows(a, b, k);
    }
  }

  lemma PrefixGrows(a: seq<Mention>, b: seq<Mention>, k: nat)
    requires k < |a| && k < |b| && a[..k] == b[..k] && a[k] == b[k]
    ensures a[..k + 1] == b[..k + 1]
  {
    assert a[..k + 1] == a[..k] + [a[k]] && b[..k + 1] == b[..k] + [b[k]];
  }

  lemma SameSpan(content: string, isWord: char -> bool, m: Mention, n: Mention)
    requires SpansMention(content, isWord, m) && SpansMention(content, isWord, n)
    requires m.start == n.start && m.order == n.order
    ensures m == n
  {
  }

  /** Any mention of the text is in its list, up to the number. */
  lemma MentionListed(content: string, isWord: char -> bool, ms: seq<Mention>, m: Mention) returns (k: nat)
    requires AreMentions(content, isWord, ms) && SpansMention(content, isWord, m)
    ensures k < |ms| && ms[k] == m.(order := k)
  {
    k :| 0 <= k < |ms| && ms[k].start == m.start;
    SameSpan(content, isWord, ms[k], m.(order := k));
  }

  /** What counts as a mention, at a text: names may hold letters, digits, `_` and `-`, begin with
      a letter and end before any other character; a `#` behind a word character or in front
      of a digit begins none. */
  lemma MentionsOfAText(isWord: char -> bool)
    requires isWord('x') && !isWord(' ')
    ensures AreMentions("#aZ-_0.x#c #9", isWord, [Mention("#aZ-_0", "aZ-_0", 0, 0, 6)])
  {
    var content := "#aZ-_0.x#c #9";
    assert content[0..6] == "#aZ-_0" && content[1..6] == "aZ-_0";
    var ms := [Mention("#aZ-_0", "aZ-_0", 0, 0, 6)];
    assert ms[0].start == 0 && SpansMention(content, isWord, ms[0]);
    forall i | 0 <= i < |content| && StartsMention(content, isWord, i) ensures i == 0 {
      assert content[i] == '#' ==> i == 0 || i == 8 || i == 11;
    }
  }
}
