/**
 * The X.com sentiment service: join the fetched post texts with single
 * spaces, cut the text at 5000 characters, and classify the model's reply,
 * trimmed and lower-cased, into exactly one of two stances. The fetched
 * posts and the model's reply are inputs; `None` stands for a request that
 * failed or a response without the expected field.
 */
module Sentiment {
  import opened Wrappers

  datatype Stance = Positif | Negative

  /** The text each stance is reported as. */
  function StanceText(s: Stance): (t: string)
    ensures t == "positif" || t == "negative"
  {
    match s
    case Positif => "positif"
    case Negative => "negative"
  }

  /** The characters `String.prototype.trim` removes: ECMAScript white space and line terminators. */
  predicate IsSpace(c: char) {
    || '\U{9}' <= c <= '\U{D}'
    || c == ' ' || c == '\U{A0}' || c == '\U{1680}'
    || '\U{2000}' <= c <= '\U{200A}'
    || c == '\U{2028}' || c == '\U{2029}' || c == '\U{202F}' || c == '\U{205F}'
    || c == '\U{3000}' || c == '\U{FEFF}'
  }

  predicate AllSpace(s: string) {
    forall i :: 0 <= i < |s| ==> IsSpace(s[i])
  }

  /** The suffix left after removing leading white space. */
  function TrimStart(s: string): (r: string)
    ensures |r| <= |s| && r == s[|s| - |r|..]
    ensures AllSpace(s[..|s| - |r|])
    ensures r == [] || !IsSpace(r[0])
    decreases |s|
  {
    if s != [] && IsSpace(s[0]) then TrimStart(s[1..]) else s
  }

  /** The prefix left after removing trailing white space. */
  function TrimEnd(s: string): (r: string)
    ensures |r| <= |s| && r == s[..|r|]
    ensures AllSpace(s[|r|..])
    ensures r == [] || !IsSpace(r[|r| - 1])
    decreases |s|
  {
    if s != [] && IsSpace(s[|s| - 1]) then TrimEnd(s[..|s| - 1]) else s
  }

  /** `trim()`: a contiguous slice of the input with no white space at either end. */
  function Trim(s: string): (r: string)
    ensures exists i, j :: 0 <= i <= j <= |s| && r == s[i..j] && AllSpace(s[..i]) && AllSpace(s[j..])
    ensures r == [] || (!IsSpace(r[0]) && !IsSpace(r[|r| - 1]))
  {
    var t := TrimStart(s);
    var r := TrimEnd(t);
    var i := |s| - |t|;
    assert r == s[i..i + |r|];
    r
  }

  /** `toLowerCase()` on the ASCII letters; every other character is kept. */
  function LowerChar(c: char): (d: char)
    ensures 'A' <= c <= 'Z' ==> d as int == c as int + 32
    ensures !('A' <= c <= 'Z') ==> d == c
  {
    if 'A' <= c <= 'Z' then (c as int + 32) as char else c
  }

  function ToLower(s: string): (r: string)
    ensures |r| == |s| && forall i :: 0 <= i < |s| ==> r[i] == LowerChar(s[i])
  {
    seq(|s|, i requires 0 <= i < |s| => LowerChar(s[i]))
  }

  /** The reply classification: exactly the replies that trim and lower-case to "positif" are positive. */
  function NormaliseReply(reply: Option<string>): (s: Stance)
    ensures s == Positif <==> reply.Some? && ToLower(Trim(reply.value)) == "positif"
  {
    match reply
    case None => Negative
    case Some(text) =>
      var sentiment := ToLower(Trim(text));
      if sentiment == "positif" then Positif
      else if sentiment == "negative" then Negative
      else Negative
  }

  /** Trimming twice is trimming once. */
  lemma TrimIdempotent(s: string)
    ensures Trim(Trim(s)) == Trim(s)
  {
    var r := Trim(s);
    if r != [] {
      assert TrimStart(r) == r;
      assert TrimEnd(r) == r;
    }
  }

  /** Lower-casing twice is lower-casing once. */
  lemma ToLowerIdempotent(s: string)
    ensures ToLower(ToLower(s)) == ToLower(s)
  {
  }

  /** Lower-casing neither creates nor removes white space. */
  lemma LowerKeepsSpace(c: char)
    ensures IsSpace(LowerChar(c)) <==> IsSpace(c)
  {
    if 'A' <= c <= 'Z' {
      assert 'a' <= LowerChar(c) <= 'z';
    }
  }

  /** Lower-casing commutes with trimming the start. */
  lemma {:induction false} TrimStartToLower(s: string)
    ensures TrimStart(ToLower(s)) == ToLower(TrimStart(s))
    decreases |s|
  {
    if s != [] {
      var l := ToLower(s);
      LowerKeepsSpace(s[0]);
      if IsSpace(s[0]) {
        assert l[1..] == ToLower(s[1..]);
        TrimStartToLower(s[1..]);
      }
    }
  }

  /** Lower-casing commutes with trimming the end. */
  lemma {:induction false} TrimEndToLower(s: string)
    ensures TrimEnd(ToLower(s)) == ToLower(TrimEnd(s))
    decreases |s|
  {
    if s != [] {
      var l := ToLower(s);
      LowerKeepsSpace(s[|s| - 1]);
      if IsSpace(s[|s| - 1]) {
        assert l[..|s| - 1] == ToLower(s[..|s| - 1]);
        TrimEndToLower(s[..|s| - 1]);
      }
    }
  }

  /** Normalising an already trimmed, lower-cased reply changes nothing: the classification is stable. */
  lemma NormaliseStable(text: string)
    ensures NormaliseReply(Some(ToLower(Trim(text)))) == NormaliseReply(Some(text))
  {
    TrimIdempotent(text);
    TrimStartToLower(Trim(text));
    TrimEndToLower(TrimStart(Trim(text)));
    ToLowerIdempotent(Trim(text));
  }

  /** A padded, upper-case reply is still read as positive. */
  lemma PaddedUpperCaseReply()
    ensures NormaliseReply(Some(" POSITIF\n")) == Positif
  {
    var s := " POSITIF\n";
    assert !IsSpace('P') && !IsSpace('F');
    assert TrimStart(s[1..]) == s[1..];
    assert TrimStart(s) == s[1..];
    assert s[1..][..|s[1..]| - 1] == "POSITIF";
    assert TrimEnd("POSITIF") == "POSITIF";
    assert TrimEnd(s[1..]) == "POSITIF";
    var l := ToLower("POSITIF");
    assert l[0] == 'p' && l[1] == 'o' && l[2] == 's' && l[3] == 'i' && l[4] == 't' && l[5] == 'i' && l[6] == 'f';
    assert l == "positif";
  }

  /** The post texts joined by single spaces. */
  function Join(posts: seq<string>): (text: string)
    ensures posts == [] ==> text == []
    decreases |posts|
  {
    if posts == [] then []
    else if |posts| == 1 then posts[0]
    else Join(posts[..|posts| - 1]) + " " + posts[|posts| - 1]
  }

  function TotalLength(posts: seq<string>): nat
    decreases |posts|
  {
    if posts == [] then 0 else TotalLength(posts[..|posts| - 1]) + |posts[|posts| - 1]|
  }

  /** The joined text holds every character of every post plus one separator between neighbours. */
  lemma {:induction false} JoinLength(posts: seq<string>)
    requires posts != []
    ensures |Join(posts)| == TotalLength(posts) + |posts| - 1
    decreases |posts|
  {
    if |posts| == 1 {
      assert posts[..0] == [];
    } else {
      JoinLength(posts[..|posts| - 1]);
    }
  }

  const MaxTextLength := 5000

  /** `fetchXSentiment`: the joined posts cut at 5000 characters, or "" when no posts came back. */
  function FetchText(posts: Option<seq<string>>): (text: string)
    ensures |text| <= MaxTextLength
    ensures posts.None? ==> text == ""
    ensures posts.Some? ==> |text| == if |Join(posts.value)| < MaxTextLength then |Join(posts.value)| else MaxTextLength
    ensures posts.Some? ==> text == Join(posts.value)[..|text|]
  {
    match posts
    case None => ""
    case Some(ps) =>
      var joined := Join(ps);
      if |joined| <= MaxTextLength then joined else joined[..MaxTextLength]
  }

  /** Two or more posts always give some text to classify, even when every post is empty. */
  lemma SeveralPostsGiveText(posts: seq<string>)
    requires |posts| >= 2
    ensures FetchText(Some(posts)) != ""
  {
    JoinLength(posts);
  }

  /**
   * `analyzeSentiment`: with no text to classify the stance is negative;
   * otherwise it is the classification of the model's reply.
   */
  function AnalyzeSentiment(posts: Option<seq<string>>, reply: Option<string>): (s: Stance)
    ensures s == Positif <==> FetchText(posts) != "" && NormaliseReply(reply) == Positif
  {
    var xData := FetchText(posts);
    if xData == "" then Negative else NormaliseReply(reply)
  }

  /** Without posts, or with no post at all, the stance is negative whatever the model says. */
  lemma NoPostsNegative(posts: Option<seq<string>>, reply: Option<string>)
    requires posts.None? || posts.value == []
    ensures AnalyzeSentiment(posts, reply) == Negative
  {
  }
}
