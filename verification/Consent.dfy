/**
  * The consent store: a map from service keys to answers, printed in a cookie as `!key=status` entries, erased by a
  * regular expression and looked up by a substring search.
  */
module Consent {

  datatype Status = Wait | Allowed | Denied

  datatype Entry = Entry(key: string, status: Status)

  function Word(s: Status): (w: string)
    ensures w != "" && '!' !in w && '=' !in w && ';' !in w
  {
    match s
    case Wait => "wait"
    case Allowed => "true"
    case Denied => "false"
  }

  /** Letters, digits, `_` and `-`: what stands for itself in a regular expression and in a cookie. */
  predicate Plain(key: string) {
    key != "" && forall i :: 0 <= i < |key| ==> PlainChar(key[i])
  }

  predicate PlainChar(c: char) {
    'a' <= c <= 'z' || 'A' <= c <= 'Z' || '0' <= c <= '9' || c == '_' || c == '-'
  }

  function Printed(e: Entry): (s: string)
    ensures |s| == |e.key| + |Word(e.status)| + 2
  {
    "!" + e.key + "=" + Word(e.status)
  }

  /** The text of an allowance, of a denial, and of a service that waits. */
  lemma PrintedAnswers(key: string)
    ensures Printed(Entry(key, Allowed)) == "!" + key + "=true"
    ensures Printed(Entry(key, Denied)) == "!" + key + "=false"
    ensures Printed(Entry(key, Wait)) == "!" + key + "=wait"
  {
  }

  function Print(es: seq<Entry>): string {
    if es == [] then "" else Printed(es[0]) + Print(es[1..])
  }

  /** The length of the match of the regular expression at the start of the text, or 0. */
  function MatchLength(s: string, key: string): (n: nat)
    ensures n <= |s|
  {
    var p := "!" + key + "=";
    if !(p <= s) then 0
    else
      var rest := s[|p|..];
      if "wait" <= rest || "true" <= rest then |p| + 4
      else if "false" <= rest then |p| + 5
      else 0
  }

  /** `replace` of all the matches by the empty string. */
  function Erase(s: string, key: string): string
    decreases |s|
  {
    if s == "" then ""
    else
      var n := MatchLength(s, key);
      if n > 0 then Erase(s[n..], key) else [s[0]] + Erase(s[1..], key)
  }

  /** `indexOf` is not negative. */
  predicate Contains(s: string, t: string) {
    exists i :: 0 <= i <= |s| && OccursAt(s, t, i)
  }

  predicate OccursAt(s: string, t: string, i: int) {
    0 <= i <= |s| - |t| && s[i..i + |t|] == t
  }

  ghost predicate Suffix(g: string, h: string) {
    |g| <= |h| && h[|h| - |g|..] == g
  }

  /** No key is a proper suffix of another. */
  ghost predicate SuffixFree(keys: set<string>) {
    forall g, h :: g in keys && h in keys && Suffix(g, h) ==> g == h
  }

  /** One entry for each key, and all the keys are plain. */
  ghost predicate Keyed(es: seq<Entry>) {
    && (forall i :: 0 <= i < |es| ==> Plain(es[i].key))
    && (forall i, j :: 0 <= i < j < |es| ==> es[i].key != es[j].key)
  }

  function Drop(es: seq<Entry>, key: string): (r: seq<Entry>)
    ensures forall e :: e in r <==> e in es && e.key != key
  {
    if es == [] then []
    else (if es[0].key == key then [] else [es[0]]) + Drop(es[1..], key)
  }

  function Put(es: seq<Entry>, key: string, status: Status): seq<Entry> {
    Drop(es, key) + [Entry(key, status)]
  }

  // Printing and erasing.

  /** The rest of a printed store. */
  predicate Rest(s: string) {
    s == "" || s[0] == '!'
  }

  lemma PrintIsRest(es: seq<Entry>)
    ensures Rest(Print(es))
  {
  }

  /** Two texts that go on with `=` after a part without `=` have that part in common. */
  lemma SameKey(g: string, h: string, x: string, y: string)
    requires '=' !in g && '=' !in h && g + "=" + x == h + "=" + y
    ensures g == h && x == y
  {
    var s, t := g + "=" + x, h + "=" + y;
    assert forall i :: 0 <= i < |g| ==> s[i] == g[i];
    assert forall i :: 0 <= i < |h| ==> t[i] == h[i];
    assert s[|g|] == t[|h|] == '=';
    assert g == s[..|g|] && h == t[..|h|] && x == s[|g| + 1..] && y == t[|h| + 1..];
  }

  /** A status followed by the rest of a store starts with another status only if they are the same. */
  lemma WordStart(a: Status, b: Status, rest: string)
    requires Rest(rest) && Word(a) <= Word(b) + rest
    ensures a == b
  {
    var s := Word(b) + rest;
    assert s[0] == Word(b)[0] && Word(a)[0] == s[0];
  }

  lemma {:induction false} EraseText(t: string, rest: string, key: string)
    requires '!' !in t
    ensures Erase(t + rest, key) == t + Erase(rest, key)
    decreases |t|
  {
    hide MatchLength;
    if t == "" {
      assert t + rest == rest;
    } else {
      var s := t + rest;
      assert s[0] == t[0] && s[1..] == t[1..] + rest;
      NoMatchInside(s, key);
      EraseText(t[1..], rest, key);
    }
  }

  lemma NoMatchInside(s: string, key: string)
    requires s != "" && s[0] != '!'
    ensures MatchLength(s, key) == 0
  {
    assert ("!" + key + "=")[0] == '!';
  }

  lemma NoMatch(e: Entry, rest: string, key: string)
    requires Plain(e.key) && Plain(key) && e.key != key
    ensures MatchLength(Printed(e) + rest, key) == 0
  {
    var s, p := Printed(e) + rest, "!" + key + "=";
    if p <= s {
      var x, y := s[|p|..], Word(e.status) + rest;
      assert s == p + x;
      assert s[1..] == key + "=" + x;
      assert s[1..] == e.key + "=" + y;
      SameKey(key, e.key, x, y);
    }
  }

  lemma EraseOther(e: Entry, rest: string, key: string)
    requires Plain(e.key) && Plain(key) && e.key != key
    ensures Erase(Printed(e) + rest, key) == Printed(e) + Erase(rest, key)
  {
    hide MatchLength;
    var s, t := Printed(e) + rest, e.key + "=" + Word(e.status);
    NoMatch(e, rest, key);
    assert Printed(e) == "!" + t;
    assert s[0] == '!' && s[1..] == t + rest;
    EraseText(t, rest, key);
  }

  lemma EraseSame(e: Entry, rest: string)
    requires Plain(e.key) && Rest(rest)
    ensures Erase(Printed(e) + rest, e.key) == Erase(rest, e.key)
  {
    var s, p := Printed(e) + rest, "!" + e.key + "=";
    var w := Word(e.status);
    assert s == p + (w + rest);
    assert s[|p|..] == w + rest && (w + rest)[..|w|] == w;
    if "wait" <= w + rest {
      WordStart(Wait, e.status, rest);
    }
    if "true" <= w + rest {
      WordStart(Allowed, e.status, rest);
    }
    if "false" <= w + rest {
      WordStart(Denied, e.status, rest);
    }
    assert MatchLength(s, e.key) == |p| + |w|;
    assert s[|p| + |w|..] == rest;
  }

  /** On the printed string, erasing a key is dropping its entries. */
  lemma {:induction false} EraseIsDrop(es: seq<Entry>, key: string)
    requires (forall i :: 0 <= i < |es| ==> Plain(es[i].key)) && Plain(key)
    ensures Erase(Print(es), key) == Print(Drop(es, key))
  {
    if es != [] {
      var e, rest := es[0], Print(es[1..]);
      EraseIsDrop(es[1..], key);
      PrintIsRest(es[1..]);
      if e.key == key {
        EraseSame(e, rest);
        assert [] + Drop(es[1..], key) == Drop(es[1..], key);
      } else {
        EraseOther(e, rest, key);
        assert Drop(es, key)[1..] == Drop(es[1..], key);
      }
    }
  }

  lemma {:induction false} PrintAppend(es: seq<Entry>, e: Entry)
    ensures Print(es + [e]) == Print(es) + Printed(e)
  {
    if es == [] {
      assert es + [e] == [e] && Print([e]) == Printed(e) + Print([]);
    } else {
      assert (es + [e])[1..] == es[1..] + [e];
      PrintAppend(es[1..], e);
    }
  }

  // Searching the printed string.

  function Pattern(key: string, status: Status): string {
    key + "=" + Word(status)
  }

  lemma OccursChars(s: string, key: string, status: Status, i: int)
    requires OccursAt(s, Pattern(key, status), i)
    ensures 0 <= i && i + |key| + 1 + |Word(status)| <= |s| && s[i + |key|] == '='
    ensures forall k :: 0 <= k < |key| ==> s[i + k] == key[k]
    ensures s[i..i + |key|] == key && Word(status) <= s[i + |key| + 1..]
  {
    hide OccursAt, Word;
    var w := Word(status);
    assert Pattern(key, status) == key + ("=" + w);
    OccursSplit(s, key, "=" + w, i);
    OccursSplit(s, "=", w, i + |key|);
    forall k | 0 <= k < |key|
      ensures s[i + k] == key[k]
    {
      assert s[i..i + |key|][k] == s[i + k];
    }
    assert s[i + |key|..i + |key| + 1][0] == '=';
  }

  lemma OccursSplit(s: string, t: string, u: string, i: int)
    requires OccursAt(s, t + u, i)
    ensures 0 <= i && i + |t| + |u| <= |s| && s[i..i + |t|] == t
    ensures OccursAt(s, u, i + |t|) && u <= s[i + |t|..]
  {
    var o := s[i..i + |t + u|];
    assert o[..|t|] == s[i..i + |t|] && o[|t|..] == s[i + |t|..i + |t| + |u|];
    assert (t + u)[..|t|] == t && (t + u)[|t|..] == u;
    assert s[i + |t|..][..|u|] == s[i + |t|..i + |t| + |u|];
  }

  /** The one `=` of an entry. */
  lemma OneEquals(e: Entry, p: nat)
    requires Plain(e.key) && p < |Printed(e)|
    ensures Printed(e)[p] == '=' <==> p == 1 + |e.key|
  {
    if 1 <= p <= |e.key| {
      assert Printed(e)[p] == e.key[p - 1];
    } else if p > 1 + |e.key| {
      assert Printed(e)[p] == Word(e.status)[p - 2 - |e.key|];
    }
  }

  /** The key of a pattern that starts within the first entry ends before the end of that entry. */
  lemma EndsFirst(e: Entry, rest: string, key: string, status: Status, i: nat)
    requires Plain(key) && Rest(rest)
    requires i < |Printed(e)| && OccursAt(Printed(e) + rest, Pattern(key, status), i)
    ensures 0 < i && i + |key| < |Printed(e)|
  {
    hide Pattern, OccursAt;
    var s, n := Printed(e) + rest, |Printed(e)|;
    OccursChars(s, key, status, i);
    assert s[0] == '!' && s[i] == key[0];
    assert n < |s| ==> s[n] == '!';
    forall p | i <= p < i + |key|
      ensures PlainChar(s[p])
    {
      assert s[i + (p - i)] == key[p - i];
    }
  }

  /** A pattern that starts within the first entry is found there. */
  lemma FoundFirst(e: Entry, rest: string, key: string, status: Status, i: nat)
    requires Plain(e.key) && Plain(key) && Rest(rest) && (Suffix(key, e.key) ==> key == e.key)
    requires i < |Printed(e)| && OccursAt(Printed(e) + rest, Pattern(key, status), i)
    ensures e == Entry(key, status)
  {
    hide Pattern, OccursAt, Word;
    var s := Printed(e) + rest;
    OccursChars(s, key, status, i);
    EndsFirst(e, rest, key, status, i);
    OneEquals(e, i + |key|);
    assert s[i..i + |key|] == e.key[i - 1..];
    assert s[i + |key| + 1..] == Word(e.status) + rest;
    WordStart(status, e.status, rest);
  }

  /** If no key is a suffix of another, the substring search finds exactly the entries of the store. */
  lemma SearchIsLookup(es: seq<Entry>, key: string, status: Status)
    requires Plain(key)
    requires forall i :: 0 <= i < |es| ==> Plain(es[i].key) && (Suffix(key, es[i].key) ==> key == es[i].key)
    ensures Contains(Print(es), Pattern(key, status)) <==> Entry(key, status) in es
  {
    hide Pattern, OccursAt, Suffix, Plain;
    if Contains(Print(es), Pattern(key, status)) {
      var i :| OccursAt(Print(es), Pattern(key, status), i);
      FoundIsEntry(es, key, status, i);
    }
    if Entry(key, status) in es {
      EntryIsFound(es, key, status);
    }
  }

  lemma {:induction false} FoundIsEntry(es: seq<Entry>, key: string, status: Status, i: int)
    requires Plain(key)
    requires forall i :: 0 <= i < |es| ==> Plain(es[i].key) && (Suffix(key, es[i].key) ==> key == es[i].key)
    requires OccursAt(Print(es), Pattern(key, status), i)
    ensures Entry(key, status) in es
  {
    hide Pattern, Suffix, Plain;
    PatternLong(key, status);
    var e, rest, t := es[0], Print(es[1..]), Pattern(key, status);
    PrintIsRest(es[1..]);
    if i < |Printed(e)| {
      FoundFirst(e, rest, key, status, i);
    } else {
      var k := i - |Printed(e)|;
      assert rest[k..k + |t|] == Print(es)[i..i + |t|];
      FoundIsEntry(es[1..], key, status, k);
    }
  }

  lemma OccursLater(s: string, rest: string, t: string, i: int)
    requires OccursAt(rest, t, i)
    ensures OccursAt(s + rest, t, |s| + i)
  {
  }

  lemma {:induction false} EntryIsFound(es: seq<Entry>, key: string, status: Status)
    requires Entry(key, status) in es
    ensures Contains(Print(es), Pattern(key, status))
  {
    hide Pattern, OccursAt, Printed;
    var e, rest, t := es[0], Print(es[1..]), Pattern(key, status);
    if e == Entry(key, status) {
      PatternIn(key, status, rest);
    } else {
      EntryIsFound(es[1..], key, status);
      var i :| OccursAt(rest, t, i);
      OccursLater(Printed(e), rest, t, i);
    }
  }

  lemma PatternLong(key: string, status: Status)
    ensures |Pattern(key, status)| > 0
  {
  }

  lemma PatternIn(key: string, status: Status, rest: string)
    ensures OccursAt(Printed(Entry(key, status)) + rest, Pattern(key, status), 1)
  {
  }

  /** A key that is a suffix of another one is found without an entry of its own. */
  lemma SuffixConfuses(key: string, other: string, status: Status)
    requires Suffix(key, other) && key != other
    ensures Contains(Print([Entry(other, status)]), Pattern(key, status))
    ensures Entry(key, status) !in [Entry(other, status)]
  {
    var s, t, k := Printed(Entry(other, status)), Pattern(key, status), |other| - |key|;
    assert Print([Entry(other, status)]) == s + "" == s;
    assert other == other[..k] + key;
    assert s == "!" + other[..k] + t;
    assert OccursAt(s, t, 1 + k);
  }

  ghost predicate Over(es: seq<Entry>, keys: set<string>) {
    forall i :: 0 <= i < |es| ==> es[i].key in keys
  }

  /** The search agrees with the store. */
  ghost predicate Agrees(es: seq<Entry>, key: string, status: Status) {
    Contains(Print(es), Pattern(key, status)) <==> Entry(key, status) in es
  }

  /** The search is exact for a set of plain keys if, and only if, none is a suffix of another. */
  lemma SearchExactIff(keys: set<string>)
    requires forall k :: k in keys ==> Plain(k)
    ensures SuffixFree(keys) <==> forall es, key, status :: Over(es, keys) && key in keys ==> Agrees(es, key, status)
  {
    hide Contains, Print, Pattern, Plain, Suffix;
    if SuffixFree(keys) {
      forall es, key, status | Over(es, keys) && key in keys
        ensures Agrees(es, key, status)
      {
        SearchIsLookup(es, key, status);
      }
    } else {
      var g, h :| g in keys && h in keys && Suffix(g, h) && g != h;
      SuffixConfuses(g, h, Allowed);
      assert Over([Entry(h, Allowed)], keys) && !Agrees([Entry(h, Allowed)], g, Allowed);
    }
  }

  // The store as a map.

  lemma KeyedPut(es: seq<Entry>, key: string, status: Status)
    requires Keyed(es) && Plain(key)
    ensures Keyed(Put(es, key, status))
    ensures forall e :: e in Put(es, key, status) <==> if e.key == key then e.status == status else e in es
  {
    hide Plain;
    KeyedDrop(es, key);
    var d, r := Drop(es, key), Put(es, key, status);
    assert forall i :: 0 <= i < |d| ==> r[i] == d[i] && d[i] in d;
  }

  lemma {:induction false} KeyedDrop(es: seq<Entry>, key: string)
    requires Keyed(es)
    ensures Keyed(Drop(es, key))
  {
    hide Plain;
    if es != [] {
      var d := Drop(es[1..], key);
      KeyedDrop(es[1..], key);
      forall i | 0 <= i < |d|
        ensures d[i].key != es[0].key
      {
        assert d[i] in es[1..];
      }
      assert Drop(es, key) == d || Drop(es, key) == [es[0]] + d;
    }
  }

  lemma PlainKeys(es: seq<Entry>)
    requires Keyed(es)
    ensures forall i :: 0 <= i < |es| ==> Plain(es[i].key)
  {
  }

  /** `create` on the string is an update of the map: erase the key, then append. */
  lemma CreateIsPut(es: seq<Entry>, key: string, status: Status)
    requires Keyed(es) && Plain(key)
    ensures Erase(Print(es), key) + "!" + key + "=" + Word(status) == Print(Put(es, key, status))
  {
    hide Keyed, Plain, Print, Erase, Drop, Word;
    var p := Print(Drop(es, key));
    PlainKeys(es);
    EraseIsDrop(es, key);
    PrintAppend(Drop(es, key), Entry(key, status));
    assert p + Printed(Entry(key, status)) == p + "!" + key + "=" + Word(status);
  }

  // The cookie jar.

  const NAME := "tarteaucitron="

  /** A cookie as the browser gives it. */
  predicate Cookie(c: string) {
    ';' !in c && (c == "" || c[0] != ' ')
  }

  predicate Jar(jar: seq<string>) {
    forall i :: 0 <= i < |jar| ==> Cookie(jar[i])
  }

  /** `document.cookie`. */
  function Text(jar: seq<string>): string {
    if jar == [] then ""
    else if |jar| == 1 then jar[0]
    else jar[0] + "; " + Text(jar[1..])
  }

  /** `split(';')`. */
  function Split(s: string): (pieces: seq<string>)
    ensures pieces != []
  {
    if s == "" then [""]
    else
      var pieces := Split(s[1..]);
      if s[0] == ';' then [""] + pieces else [[s[0]] + pieces[0]] + pieces[1..]
  }

  function Pieces(lead: string, jar: seq<string>): (pieces: seq<string>)
    ensures pieces != []
    decreases |jar|
  {
    if jar == [] then [lead]
    else if |jar| == 1 then [lead + jar[0]]
    else [lead + jar[0]] + Pieces(" ", jar[1..])
  }

  lemma {:induction false} SplitPiece(p: string, rest: string)
    requires ';' !in p
    ensures Split(p) == [p] && Split(p + ";" + rest) == [p] + Split(rest)
  {
    if p == "" {
      assert p + ";" + rest == ";" + rest && (";" + rest)[1..] == rest;
    } else {
      var s := p + ";" + rest;
      SplitPiece(p[1..], rest);
      assert s[0] == p[0] && s[1..] == p[1..] + ";" + rest;
      assert [p[0]] + p[1..] == p;
    }
  }

  lemma {:induction false} SplitText(lead: string, jar: seq<string>)
    requires Jar(jar) && ';' !in lead
    ensures Split(lead + Text(jar)) == Pieces(lead, jar)
    decreases |jar|
  {
    if jar == [] {
      SplitPiece(lead, "");
      assert lead + "" == lead;
    } else if |jar| == 1 {
      SplitPiece(lead + jar[0], "");
    } else {
      assert Jar(jar[1..]);
      SplitText(" ", jar[1..]);
      SplitPiece(lead + jar[0], " " + Text(jar[1..]));
      assert lead + Text(jar) == lead + jar[0] + ";" + (" " + Text(jar[1..]));
    }
  }

  /** The value of the first cookie with the name, or the empty string. */
  function Value(jar: seq<string>): string {
    if jar == [] then ""
    else if NAME <= jar[0] then jar[0][|NAME|..]
    else Value(jar[1..])
  }

  /** What the browser does with a new value of the cookie. */
  function SetIn(jar: seq<string>, value: string): seq<string> {
    if jar == [] then [NAME + value]
    else if NAME <= jar[0] then [NAME + value] + jar[1..]
    else [jar[0]] + SetIn(jar[1..], value)
  }

  /** What is set is what is read, whatever else is in the jar. */
  lemma {:induction false} ReadAfterSet(jar: seq<string>, value: string)
    requires Jar(jar) && ';' !in value
    ensures Value(SetIn(jar, value)) == value && Jar(SetIn(jar, value))
  {
    if jar == [] || NAME <= jar[0] {
      assert (NAME + value)[|NAME|..] == value;
    } else {
      assert Jar(jar[1..]);
      ReadAfterSet(jar[1..], value);
      assert ([jar[0]] + SetIn(jar[1..], value))[1..] == SetIn(jar[1..], value);
    }
  }

  lemma {:induction false} PrintNoSemicolon(es: seq<Entry>)
    requires forall i :: 0 <= i < |es| ==> Plain(es[i].key)
    ensures ';' !in Print(es)
  {
    if es != [] {
      PrintNoSemicolon(es[1..]);
      assert ';' !in es[0].key;
    }
  }

  /** Without its leading spaces. */
  function Trim(s: string): string {
    if s != "" && s[0] == ' ' then Trim(s[1..]) else s
  }

  /** The value that `read` finds among the pieces. */
  function Find(pieces: seq<string>): string {
    if pieces == [] then ""
    else if NAME <= Trim(pieces[0]) then Trim(pieces[0])[|NAME|..]
    else Find(pieces[1..])
  }

  lemma {:induction false} FindInPieces(lead: string, jar: seq<string>)
    requires Jar(jar) && (lead == "" || lead == " ")
    ensures Find(Pieces(lead, jar)) == Value(jar)
    decreases |jar|
  {
    if jar == [] {
      assert Trim(lead) == "";
    } else {
      var c := jar[0];
      assert lead + c == if lead == "" then c else " " + c;
      assert Trim(lead + c) == c by {
        assert lead == " " ==> (lead + c)[1..] == c;
      }
      if |jar| > 1 {
        assert Jar(jar[1..]);
        FindInPieces(" ", jar[1..]);
      }
    }
  }

  /** A service; its fallback, if it has one, shows what is missing. */
  datatype Service = Service(key: string, needConsent: bool, hasFallback: bool)

  /** A service that runs, and was not denied, is denied now. */
  predicate Regrets(key: string, state: map<string, bool>, launch: set<string>) {
    key in launch && !(key in state && !state[key])
  }

  class Tarteaucitron {
    /** The cookies of the document. */
    var jar: seq<string>
    var state: map<string, bool>
    var launch: set<string>
    var reloadThePage: bool
    const keys: set<string>
    const highPrivacy: bool
    const bypass: bool

    /** The answers stored in the cookie. */
    ghost var entries: seq<Entry>
    /** The services whose `js` was called, in order. */
    ghost var launched: seq<string>
    /** The services whose `fallback` was called, in order. */
    ghost var replaced: seq<string>
    /** The services for which an allowance was stored at some time. */
    ghost var consented: set<string>

    /** The cookie is the printed store. */
    ghost predicate Stored()
      reads this`jar, this`entries
    {
      && Jar(jar) && Value(jar) == Print(entries) && Keyed(entries)
      && (forall i :: 0 <= i < |entries| ==> entries[i].key in keys)
    }

    /** An allowance was stored for whatever is allowed, and for whatever runs. */
    ghost predicate Consented()
      reads this`entries, this`launched, this`consented
    {
      && (forall k :: Entry(k, Allowed) in entries ==> k in consented)
      && (forall k :: k in launched ==> k in consented)
    }

    /** The services have plain keys, none a suffix of another. */
    ghost predicate Services() {
      SuffixFree(keys) && forall k :: k in keys ==> Plain(k)
    }

    /** An answer that the page acts on is the stored one. */
    ghost predicate Honoured()
      reads this`state, this`entries
    {
      forall k :: k in state ==> k in keys && Entry(k, if state[k] then Allowed else Denied) in entries
    }

    /** What is allowed was launched, once. */
    ghost predicate Running()
      reads this`state, this`launch, this`launched
    {
      && (forall k :: k in state && state[k] ==> k in launch)
      && (forall k :: k in launch <==> k in launched)
      && (forall i, j :: 0 <= i < j < |launched| ==> launched[i] != launched[j])
    }

    ghost predicate Valid()
      reads this
    {
      Services() && Stored() && Honoured() && Running() && Consented()
    }

    constructor (jar: seq<string>, keys: set<string>, highPrivacy: bool, bypass: bool, ghost entries: seq<Entry>)
      requires Jar(jar) && Value(jar) == Print(entries) && Keyed(entries)
      requires forall i :: 0 <= i < |entries| ==> entries[i].key in keys
      requires SuffixFree(keys) && forall k :: k in keys ==> Plain(k)
      ensures Valid() && this.keys == keys && this.entries == entries && this.jar == jar
      ensures launched == [] && replaced == [] && state == map[] && !reloadThePage
      ensures forall k :: k in consented ==> Entry(k, Allowed) in entries
    {
      this.jar, this.keys, this.highPrivacy, this.bypass, this.entries := jar, keys, highPrivacy, bypass, entries;
      state, launch, reloadThePage, launched, replaced := map[], {}, false, [], [];
      consented := set i | 0 <= i < |entries| && entries[i].status == Allowed :: entries[i].key;
    }

    /** `cookie.read`. */
    method Read() returns (value: string)
      requires Jar(jar)
      ensures value == Value(jar)
    {
      hide Jar, Cookie;
      var ca := Split(Text(jar));
      assert ca == Pieces("", jar) by {
        assert "" + Text(jar) == Text(jar);
        SplitText("", jar);
      }
      FindInPieces("", jar);
      var i := 0;
      while i < |ca|
        invariant i <= |ca| && Find(ca) == Find(ca[i..])
      {
        var c := ca[i];
        assert ca[i..][1..] == ca[i + 1..];
        while c != "" && c[0] == ' '
          invariant Trim(c) == Trim(ca[i])
          decreases |c|
        {
          c := c[1..];
        }
        if NAME <= c {
          return c[|NAME|..];
        }
        i := i + 1;
      }
      value := "";
    }

    /** `cookie.create`. */
    method Create(key: string, status: Status)
      requires Services() && Stored() && key in keys
      modifies this`jar, this`entries, this`consented
      ensures Stored() && entries == Put(old(entries), key, status)
      ensures consented == old(consented) + if status == Allowed then {key} else {}
      ensures forall e :: e in entries <==> if e.key == key then e.status == status else e in old(entries)
    {
      hide SuffixFree, Plain, Keyed, Put, Jar;
      var cookie := Read();
      cookie := Erase(cookie, key);
      CreateIsPut(entries, key, status);
      KeyedPut(entries, key, status);
      PlainKeys(Put(entries, key, status));
      PrintNoSemicolon(Put(entries, key, status));
      ReadAfterSet(jar, Print(Put(entries, key, status)));
      jar := SetIn(jar, cookie + "!" + key + "=" + Word(status));
      entries := Put(entries, key, status);
      consented := consented + if status == Allowed then {key} else {};
    }

    /** What `indexOf` says about an answer. */
    method Lookup(cookie: string, key: string, status: Status) returns (found: bool)
      requires Services() && Stored() && key in keys && cookie == Value(jar)
      ensures found <==> Entry(key, status) in entries
    {
      SearchIsLookup(entries, key, status);
      found := Contains(cookie, key + "=" + Word(status));
    }

    method Launch(key: string)
      requires Running()
      modifies this`launch, this`launched
      ensures Running() && launch == old(launch) + {key}
      ensures launched == old(launched) + if key in old(launch) then [] else [key]
    {
      if key !in launch {
        launch := launch + {key};
        launched := launched + [key];
      }
    }

    method SetState(key: string, status: bool)
      requires Valid() && key in keys && Entry(key, if status then Allowed else Denied) in entries
      requires status ==> key in launch
      modifies this`state
      ensures Valid() && state == old(state)[key := status]
    {
      state := state[key := status];
    }

    /** `cookie.create` for a service that has no answer yet. */
    method CreateFirst(key: string, status: Status)
      requires Valid() && key in keys && key !in state
      modifies this`jar, this`entries, this`consented
      ensures Valid() && EntriesKept(key) && forall s :: Entry(key, s) in entries <==> s == status
      ensures consented == old(consented) + if status == Allowed then {key} else {}
    {
      hide Services, Stored;
      Create(key, status);
    }

    /** The service may run. */
    method Allow(key: string, isAllowed: bool)
      requires Valid() && key in keys && if isAllowed then Entry(key, Allowed) in entries else key !in state
      modifies this`jar, this`entries, this`consented, this`launch, this`launched, this`state
      ensures Valid() && EntriesKept(key) && StateKept(key) && key in state && state[key]
      ensures Entry(key, Allowed) in entries && launch == old(launch) + {key}
      ensures launched == old(launched) + (if key in old(launch) then [] else [key])
      ensures consented == old(consented) + {key}
    {
      hide Services, Stored;
      if !isAllowed {
        CreateFirst(key, Allowed);
      }
      Launch(key);
      SetState(key, true);
    }

    method Fallback(service: Service)
      requires Valid()
      modifies this`replaced
      ensures Valid() && replaced == old(replaced) + if service.hasFallback then [service.key] else []
    {
      hide Services, Stored, Honoured, Running, Consented;
      if service.hasFallback {
        replaced := replaced + [service.key];
      }
    }

    /** The service has an answer that denies it. */
    method Deny(service: Service)
      requires Valid() && service.key in keys && Entry(service.key, Denied) in entries
      modifies this`replaced, this`state
      ensures Valid() && Added(service, false) && service.key in state
    {
      hide Services, Stored, Consented;
      Fallback(service);
      SetState(service.key, false);
      DeniedOnly(service.key);
    }

    /** The service waits for an answer. */
    method Ask(service: Service)
      requires Valid() && service.key in keys && service.key !in state
      modifies this`jar, this`entries, this`consented, this`replaced
      ensures Valid() && Added(service, false) && service.key !in state && Entry(service.key, Wait) in entries
    {
      hide Services, Stored, Honoured, Running, Consented;
      CreateFirst(service.key, Wait);
      Fallback(service);
    }

    lemma DeniedOnly(key: string)
      requires Valid() && Entry(key, Denied) in entries
      ensures Entry(key, Allowed) !in entries
    {
      OneAnswer(entries, key);
    }

    /** No answer denies what is in the state as allowed, and the other way round. */
    lemma NoAnswer(key: string)
      requires Valid() && Entry(key, Allowed) !in entries && Entry(key, Denied) !in entries
      ensures key !in state
    {
    }

    /** An allowed service starts, unless it runs already; the fallback of another is called. */
    twostate predicate Added(service: Service, allowed: bool)
      reads this
    {
      && EntriesKept(service.key) && StateKept(service.key)
      && (allowed <==> service.key in state && state[service.key])
      && (allowed <==> Entry(service.key, Allowed) in entries)
      && launch == old(launch) + (if allowed then {service.key} else {})
      && launched == old(launched) + (if allowed && service.key !in old(launch) then [service.key] else [])
      && replaced == old(replaced) + (if !allowed && service.hasFallback then [service.key] else [])
      && old(consented) <= consented
      && (forall k :: k in consented && k !in old(consented) ==> Entry(k, Allowed) in entries)
    }

    /** `addService`, without its markup: it is launched if, and only if, it is allowed. */
    method AddService(service: Service, isNavigating: bool)
      requires Valid() && service.key in keys
      modifies this`jar, this`entries, this`consented, this`launch, this`launched, this`replaced, this`state
      ensures Valid() && old(consented) <= consented
      // an answer is kept, and acted upon
      ensures Entry(service.key, Allowed) in old(entries) ==> Added(service, true)
      ensures Entry(service.key, Denied) in old(entries) ==>
                Added(service, false) && Entry(service.key, Denied) in entries && service.key in state
      // without an answer, the service is allowed or waits
      ensures Entry(service.key, Allowed) !in old(entries) && Entry(service.key, Denied) !in old(entries) ==>
                if bypass || (!highPrivacy &&
                     (!service.needConsent || (isNavigating && Entry(service.key, Wait) in old(entries))))
                then Added(service, true)
                else Added(service, false) && Entry(service.key, Wait) in entries && service.key !in state
    {
      hide Services, Stored, Jar, Keyed, Print, Value, Honoured, Running, Consented;
      var key := service.key;
      JarIs();
      var cookie := Read();
      var isWaiting := Lookup(cookie, key, Wait);
      var isDenied := Lookup(cookie, key, Denied);
      var isAllowed := Lookup(cookie, key, Allowed);
      if isDenied {
        DeniedOnly(key);
      } else if !isAllowed {
        NoAnswer(key);
      }
      var isResponded := isDenied || isAllowed;
      if !isResponded && bypass {
        isAllowed := true;
        CreateFirst(key, Allowed);
      }
      if (!isResponded && (!service.needConsent || (isNavigating && isWaiting)) && !highPrivacy) || isAllowed {
        Allow(key, isAllowed);
      } else if isDenied {
        Deny(service);
      } else if !isResponded {
        Ask(service);
      }
    }

    /** The answers for the services outside of `job` stay as they are. */
    twostate predicate OthersKept(job: seq<string>)
      reads this`state, this`entries
    {
      && (forall k :: k !in job ==> (k in state <==> k in old(state)) && (k in state ==> state[k] == old(state)[k]))
      && (forall e: Entry :: e.key !in job ==> (e in entries <==> e in old(entries)))
    }

    lemma Kept()
      requires Valid()
      ensures forall k :: k in launched ==> k in consented
      ensures forall k :: k in state && state[k] ==> Entry(k, Allowed) in entries
    {
    }

    lemma JarIs()
      requires Stored()
      ensures Jar(jar)
    {
    }

    /** The answers for the other services stay as they are. */
    twostate predicate EntriesKept(key: string)
      reads this`entries
    {
      forall e: Entry :: e.key != key ==> (e in entries <==> e in old(entries))
    }

    /** What the page does about the other services stays as it is. */
    twostate predicate StateKept(key: string)
      reads this`state
    {
      forall k :: k != key ==> (k in state <==> k in old(state)) && (k in state ==> state[k] == old(state)[k])
    }

    /** `userInterface.respond`. */
    method Respond(key: string, status: bool)
      requires Valid() && key in keys
      modifies this`jar, this`entries, this`consented, this`launch, this`launched, this`state, this`reloadThePage
      ensures Valid() && EntriesKept(key) && StateKept(key) && key in state && state[key] == status
      ensures Entry(key, if status then Allowed else Denied) in entries
      ensures launch == old(launch) + (if status then {key} else {})
      ensures launched == old(launched) + (if status && key !in old(launch) then [key] else [])
      // the page is to be reloaded exactly when something that runs was not denied before, and is now
      ensures reloadThePage ==
                (old(reloadThePage) || (!status && Regrets(key, old(state), old(launch))))
      ensures consented == old(consented) + if status then {key} else {}
    {
      hide Stored, Services;
      if !(key in state && state[key] == status) {
        Answer(key, status);
      }
    }

    /** The new answer is kept in memory and in the cookie. */
    method Keep(key: string, status: bool)
      requires Services() && Stored() && Honoured() && key in keys
      modifies this`state, this`jar, this`entries, this`consented
      ensures Stored() && Honoured() && EntriesKept(key) && state == old(state)[key := status]
      ensures forall s :: Entry(key, s) in entries <==> s == if status then Allowed else Denied
      ensures consented == old(consented) + if status then {key} else {}
    {
      hide Stored, Services;
      state := state[key := status];
      Create(key, if status then Allowed else Denied);
    }

    /** What `respond` and `respondAll` do with a new answer. */
    method Answer(key: string, status: bool)
      requires Valid() && key in keys && !(key in state && state[key] == status)
      modifies this`jar, this`entries, this`consented, this`launch, this`launched, this`state, this`reloadThePage
      ensures Valid() && EntriesKept(key) && StateKept(key) && key in state && state[key] == status
      ensures Entry(key, if status then Allowed else Denied) in entries
      ensures launch == old(launch) + (if status then {key} else {})
      ensures launched == old(launched) + (if status && key !in old(launch) then [key] else [])
      ensures reloadThePage == (old(reloadThePage) || (!status && key in old(launch)))
      ensures consented == old(consented) + if status then {key} else {}
    {
      hide Stored, Services, Honoured;
      if !status && key in launch {
        reloadThePage := true;
      }
      if status {
        Launch(key);
      }
      Keep(key, status);
    }

    /** `userInterface.respondAll`, which does for each service what `respond` does. */
    method RespondAll(job: seq<string>, status: bool)
      requires Valid() && forall k :: k in job ==> k in keys
      modifies this`jar, this`entries, this`consented, this`launch, this`launched, this`state, this`reloadThePage
      ensures Valid() && forall k :: k in job ==> k in state && state[k] == status
      ensures OthersKept(job)
      // nothing is launched by a denial; whatever is launched by an allowance is allowed
      ensures launch == old(launch) + (if status then set k | k in job else {})
      ensures old(launched) <= launched && (!status ==> launched == old(launched))
      ensures forall k :: k in launched && k !in old(launched) ==> k in job && Entry(k, Allowed) in entries
      // the page is to be reloaded exactly when something that runs was not denied before, and is now
      ensures reloadThePage ==
                (old(reloadThePage) || (!status && exists k :: k in job && Regrets(k, old(state), old(launch))))
      ensures old(consented) <= consented
      ensures forall k :: k in consented && k !in old(consented) ==> Entry(k, Allowed) in entries
    {
      hide Valid;
      var index := 0;
      while index < |job|
        invariant index <= |job| && Valid()
        invariant forall k :: k in job[..index] ==> k in state && state[k] == status
        invariant OthersKept(job[..index])
        invariant launch == old(launch) + (if status then set k | k in job[..index] else {})
        invariant old(launched) <= launched && (!status ==> launched == old(launched))
        invariant forall k :: k in launched && k !in old(launched) ==> k in job[..index]
        invariant reloadThePage ==
                    (old(reloadThePage) ||
                     (!status && exists k :: k in job[..index] && Regrets(k, old(state), old(launch))))
        invariant old(consented) <= consented
        invariant forall k :: k in consented && k !in old(consented) ==> status && k in job[..index]
      {
        var key := job[index];
        assert job[..index + 1] == job[..index] + [key];
        Respond(key, status);
        index := index + 1;
      }
      assert job[..|job|] == job;
      StoredAnswers();
    }

    lemma StoredAnswers()
      requires Valid()
      ensures forall k :: k in state && state[k] ==> Entry(k, Allowed) in entries
    {
    }

    /** Scripts of the site change other cookies. */
    method OtherCookies(jar: seq<string>)
      requires Valid() && Jar(jar) && Value(jar) == Value(this.jar)
      modifies this`jar
      ensures Valid() && this.jar == jar
    {
      this.jar := jar;
    }
  }

  datatype Event =
    | Add(service: Service, isNavigating: bool) | Respond(key: string, status: bool)
    | RespondAll(job: seq<string>, status: bool) | OtherCookies(jar: seq<string>)

  /** A visit does something; a service starts only in a step after which its allowance is stored. */
  method Step(t: Tarteaucitron, event: Event)
    requires t.Valid()
    modifies t
    ensures t.Valid() && old(t.launched) <= t.launched && old(t.consented) <= t.consented
    ensures forall k :: k in t.launched && k !in old(t.launched) ==> Entry(k, Allowed) in t.entries
    ensures forall k :: k in t.consented && k !in old(t.consented) ==> Entry(k, Allowed) in t.entries
    ensures event.Respond? && event.key in t.keys ==> event.key in t.state && t.state[event.key] == event.status
    ensures event.RespondAll? && (forall k :: k in event.job ==> k in t.keys) ==>
              forall k :: k in event.job ==> k in t.state && t.state[k] == event.status
    ensures event.Add? && event.service.key in t.keys ==>
              (event.service.key in t.launch <==>
               event.service.key in old(t.launch) || Entry(event.service.key, Allowed) in t.entries)
    ensures event.OtherCookies? && Jar(event.jar) && Value(event.jar) == old(Value(t.jar)) ==> t.jar == event.jar
  {
    hide Tarteaucitron.Valid, Jar, Value;
    match event {
      case Add(service, isNavigating) =>
        if service.key in t.keys {
          t.AddService(service, isNavigating);
          t.Kept();
        }
      case Respond(key, status) =>
        if key in t.keys {
          t.Respond(key, status);
          t.Kept();
        }
      case RespondAll(job, status) =>
        if forall k :: k in job ==> k in t.keys {
          t.RespondAll(job, status);
          t.Kept();
        }
      case OtherCookies(jar) =>
        if Jar(jar) && Value(jar) == Value(t.jar) {
          t.OtherCookies(jar);
        }
    }
  }

  /** Any run, from any cookie jar: whatever is started, an allowance was stored for it at some time. */
  method Run(t: Tarteaucitron, events: seq<Event>)
    requires t.Valid()
    modifies t
    ensures t.Valid() && forall k :: k in t.launched ==> k in t.consented
    // the last answer counts
    ensures events != [] && events[|events| - 1].Respond? && events[|events| - 1].key in t.keys ==>
              var last := events[|events| - 1]; last.key in t.state && t.state[last.key] == last.status
  {
    hide Tarteaucitron.Valid;
    for i := 0 to |events|
      invariant t.Valid()
      invariant i > 0 && events[i - 1].Respond? && events[i - 1].key in t.keys ==>
                  events[i - 1].key in t.state && t.state[events[i - 1].key] == events[i - 1].status
    {
      Step(t, events[i]);
    }
    t.Kept();
  }

  /** Whatever the page acts on is what a later visit will read. */
  lemma ConsentHonoured(t: Tarteaucitron, key: string)
    requires t.Valid() && key in t.state
    ensures Contains(Value(t.jar), Pattern(key, if t.state[key] then Allowed else Denied))
    ensures !Contains(Value(t.jar), Pattern(key, if t.state[key] then Denied else Allowed))
    ensures t.state[key] ==> key in t.launched
  {
    SearchIsLookup(t.entries, key, Allowed);
    SearchIsLookup(t.entries, key, Denied);
    OneAnswer(t.entries, key);
  }

  lemma OneAnswer(es: seq<Entry>, key: string)
    requires Keyed(es)
    ensures !(Entry(key, Allowed) in es && Entry(key, Denied) in es)
  {
  }
}
