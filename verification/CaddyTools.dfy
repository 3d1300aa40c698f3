/** Service names and the paths under which Caddy serves them. */
module CaddyTools {
  import opened Common

  const PREFIX := "/function/"

  predicate IsWordChar(c: char) {
    '0' <= c <= '9' || 'A' <= c <= 'Z' || 'a' <= c <= 'z' || c == '_'
  }

  /** What the greedy group `\w+` captures at the start of `s`, or nothing. */
  function WordRun(s: string): string {
    if s != "" && IsWordChar(s[0]) then [s[0]] + WordRun(s[1..]) else ""
  }

  /** The pattern `/function/(\w+)` matches at position `i`. */
  predicate MatchAt(s: string, i: nat) {
    i + |PREFIX| < |s| && s[i..i + |PREFIX|] == PREFIX && IsWordChar(s[i + |PREFIX|])
  }

  /** The leftmost match at or after `i`. */
  function FindMatch(s: string, i: nat): Option<nat>
    decreases |s| - i
  {
    if MatchAt(s, i) then Some(i)
    else if i < |s| then FindMatch(s, i + 1)
    else None
  }

  function GetServiceName(s: string): Option<string> {
    match FindMatch(s, 0)
    case None => None
    case Some(i) => if i + |PREFIX| <= |s| then Some(WordRun(s[i + |PREFIX|..])) else None
  }

  function URLToService(url: string): string {
    match GetServiceName(url)
    case None => url
    case Some(name) => name
  }

  function ServiceToURL(service: string): string {
    if '/' in service then service else PREFIX + service
  }

  predicate AllWord(s: string) {
    forall c :: c in s ==> IsWordChar(c)
  }

  /** WordRun is the longest prefix of word characters. */
  lemma {:induction false} WordRunIsLongest(s: string)
    ensures WordRun(s) <= s && AllWord(WordRun(s))
    ensures |WordRun(s)| < |s| ==> !IsWordChar(s[|WordRun(s)|])
  {
    if s != "" && IsWordChar(s[0]) {
      WordRunIsLongest(s[1..]);
    }
  }

  lemma {:induction false} FindMatchIsLeftmost(s: string, i: nat)
    ensures FindMatch(s, i).Some? ==>
              && i <= FindMatch(s, i).value && MatchAt(s, FindMatch(s, i).value)
              && forall k: nat :: i <= k < FindMatch(s, i).value ==> !MatchAt(s, k)
    ensures FindMatch(s, i).None? <==> forall k: nat :: i <= k ==> !MatchAt(s, k)
    decreases |s| - i
  {
    if !MatchAt(s, i) && i < |s| {
      FindMatchIsLeftmost(s, i + 1);
    }
  }

  /** A path made for a slash-free name can only match at its start. */
  lemma MatchOnlyAtStart(service: string, i: nat)
    requires '/' !in service
    ensures MatchAt(PREFIX + service, i) <==> i == 0 && service != "" && IsWordChar(service[0])
  {
    var url := PREFIX + service;
    assert forall k :: |PREFIX| <= k < |url| ==> url[k] == service[k - |PREFIX|];
    if i + |PREFIX| <= |url| {
      var w := url[i..i + |PREFIX|];
      assert w[0] == url[i] && w[9] == url[i + 9];
    }
  }

  lemma {:induction false} WordRunStops(word: string, rest: string)
    requires AllWord(word) && (rest == "" || !IsWordChar(rest[0]))
    ensures WordRun(word + rest) == word
  {
    if word != "" {
      assert word[0] in word && (word + rest)[1..] == word[1..] + rest;
      WordRunStops(word[1..], rest);
    } else {
      assert word + rest == rest;
    }
  }

  /** In any text the name is the word after the first "/function/" that has one. */
  lemma FirstNameIsRead(before: string, word: string, rest: string)
    requires word != "" && AllWord(word) && (rest == "" || !IsWordChar(rest[0]))
    requires forall k: nat :: k < |before| ==> !MatchAt(before + "/function/" + word + rest, k)
    ensures URLToService(before + "/function/" + word + rest) == word
  {
    var url := before + "/function/" + word + rest;
    assert url[|before|..|before| + |PREFIX|] == PREFIX;
    assert url[|before| + |PREFIX|..] == word + rest && url[|before| + |PREFIX|] == word[0] && word[0] in word;
    assert MatchAt(url, |before|);
    FindMatchIsLeftmost(url, 0);
    assert FindMatch(url, 0) == Some(|before|);
    WordRunStops(word, rest);
  }

  /** Reading back the path of a slash-free name gives its longest word prefix, or the path itself. */
  lemma SlashFreeReadBack(service: string)
    requires '/' !in service
    ensures ServiceToURL(service) == "/function/" + service
    ensures URLToService("/function/" + service) ==
            if WordRun(service) == "" then "/function/" + service else WordRun(service)
  {
    var url := PREFIX + service;
    FindMatchIsLeftmost(url, 0);
    MatchOnlyAtStart(service, 0);
    if service != "" && IsWordChar(service[0]) {
      assert url[|PREFIX|..] == service;
    } else {
      forall k: nat ensures !MatchAt(url, k) { MatchOnlyAtStart(service, k); }
    }
  }

  ghost predicate NoMatch(s: string) {
    forall k: nat :: !MatchAt(s, k)
  }

  lemma RoundTripOfWords(service: string)
    ensures URLToService(ServiceToURL(service)) == service <==>
            ('/' !in service && service != "" && AllWord(service)) || ('/' in service && NoMatch(service))
  {
    FindMatchIsLeftmost(service, 0);
    WordRunIsLongest(service);
    if '/' !in service {
      SlashFreeReadBack(service);
      if WordRun(service) == "" && service != "" {
        assert service[0] in service;
      }
      if |WordRun(service)| < |service| {
        assert service[|WordRun(service)|] in service;
      }
    } else if !NoMatch(service) {
      var i := FindMatch(service, 0).value;
      WordRunIsLongest(service[i + |PREFIX|..]);
      assert !IsWordChar('/');
      assert '/' !in WordRun(service[i + |PREFIX|..]);
    }
  }

  lemma AllWordAt(service: string)
    ensures AllWord(service) <==> forall i :: 0 <= i < |service| ==>
              '0' <= service[i] <= '9' || 'A' <= service[i] <= 'Z' || 'a' <= service[i] <= 'z' || service[i] == '_'
  {
    if AllWord(service) {
      forall i | 0 <= i < |service| ensures IsWordChar(service[i]) {
        assert service[i] in service;
      }
    }
  }

  /** For every name at all: the two functions undo each other exactly in these two cases. */
  lemma RoundTripIff(service: string)
    ensures URLToService(ServiceToURL(service)) == service <==>
            || (service != "" && forall i :: 0 <= i < |service| ==>
                  '0' <= service[i] <= '9' || 'A' <= service[i] <= 'Z' || 'a' <= service[i] <= 'z' || service[i] == '_')
            || ('/' in service && NoMatch(service))
  {
    RoundTripOfWords(service);
    AllWordAt(service);
    assert !IsWordChar('/');
  }

  /** Two different names share a path only if one of them is the path of the other. */
  lemma SamePathIff(a: string, b: string)
    ensures ServiceToURL(a) == ServiceToURL(b) <==>
            || a == b
            || ('/' !in a && b == "/function/" + a)
            || ('/' !in b && a == "/function/" + b)
    ensures '/' in a ==> ServiceToURL(a) == a
  {
    assert PREFIX[0] == '/';
    assert (PREFIX + a)[0] == '/' && (PREFIX + b)[0] == '/';
    assert (PREFIX + a)[|PREFIX|..] == a && (PREFIX + b)[|PREFIX|..] == b;
  }
}
