/** The category card: each item's keys are shown in Title Case, and a
    `due_date` value is cut at its `T`. Letters are ASCII; JavaScript's full
    Unicode `toUpperCase` is outside the model. */
module CategoryCard {
  import opened Json

  /** `ch.toUpperCase()` on ASCII: lower-case letters move up, all else stays. */
  function Upper(ch: char): (u: char)
    ensures 'a' <= ch <= 'z' ==> 'A' <= u <= 'Z' && u as int == ch as int - 32
    ensures !('a' <= ch <= 'z') ==> u == ch
  {
    if 'a' <= ch <= 'z' then (ch as int - 32) as char else ch
  }

  /** `w.charAt(0).toUpperCase() + w.slice(1)`. */
  function Capitalize(w: string): (r: string)
    ensures |r| == |w|
    ensures w != [] ==> r[0] == Upper(w[0]) && r[1..] == w[1..]
  {
    if w == [] then [] else [Upper(w[0])] + w[1..]
  }

  function CapitalizeAll(ws: seq<string>): (r: seq<string>)
    ensures |r| == |ws|
    ensures forall i :: 0 <= i < |r| ==> r[i] == Capitalize(ws[i])
  {
    if ws == [] then [] else [Capitalize(ws[0])] + CapitalizeAll(ws[1..])
  }

  /** `s.split(sep)` for a one-character separator: the maximal pieces between
      separators, empty ones included, so there is always at least one. */
  function Split(s: string, sep: char): (r: seq<string>)
    ensures |r| >= 1
    ensures forall i :: 0 <= i < |r| ==> sep !in r[i]
    ensures |r[0]| <= |s| && r[0] == s[..|r[0]|]
    ensures |r[0]| < |s| ==> s[|r[0]|] == sep
    ensures sep !in s ==> r == [s]
  {
    if s == [] then [[]]
    else
      var rest := Split(s[1..], sep);
      if s[0] == sep then [[]] + rest
      else
        assert sep !in s ==> sep !in s[1..] && [s[0]] + s[1..] == s;
        [[s[0]] + rest[0]] + rest[1..]
  }

  /** `ws.join(sep)`: pieces that do not contain the separator are joined with
      exactly one separator between each two of them. */
  function Join(ws: seq<string>, sep: char): (r: string)
    ensures |ws| > 0 && (forall i :: 0 <= i < |ws| ==> sep !in ws[i]) ==> CountChar(r, sep) == |ws| - 1
  {
    if ws == [] then []
    else if |ws| == 1 then
      CountCharAbsent(ws[0], sep);
      ws[0]
    else
      var rest := Join(ws[1..], sep);
      CountCharAbsent(ws[0], sep);
      CountCharAppend(ws[0], [sep], sep);
      CountCharAppend(ws[0] + [sep], rest, sep);
      ws[0] + [sep] + rest
  }

  /** Splitting and joining again with the same separator gives the string back. */
  lemma {:induction false} SplitJoin(s: string, sep: char)
    ensures Join(Split(s, sep), sep) == s
  {
    if s != [] {
      var rest := Split(s[1..], sep);
      SplitJoin(s[1..], sep);
      if s[0] == sep {
        JoinConsEmpty(rest, sep);
      } else {
        JoinConsChar(s[0], rest[0], rest[1..], sep);
        assert [rest[0]] + rest[1..] == rest;
      }
      assert [s[0]] + s[1..] == s;
    }
  }

  /** The key as the card shows it: `key.split('_').map(Capitalize).join(' ')`. */
  function FormatKey(key: string): (r: string)
    ensures r == TitleCased(key, true)
  {
    FormatKeyTitleCased(key);
    Join(CapitalizeAll(Split(key, '_')), ' ')
  }

  /** The same text written character by character: `_` becomes a space, and a
      character that starts a word (the first, or one after `_`) is upper-cased. */
  function TitleCased(s: string, atWordStart: bool): (r: string)
    ensures |r| == |s|
    ensures '_' !in r
  {
    if s == [] then []
    else if s[0] == '_' then [' '] + TitleCased(s[1..], true)
    else [if atWordStart then Upper(s[0]) else s[0]] + TitleCased(s[1..], false)
  }

  lemma JoinConsChar(ch: char, w: string, rest: seq<string>, sep: char)
    ensures Join([[ch] + w] + rest, sep) == [ch] + Join([w] + rest, sep)
  {
    if rest != [] {
      assert ([[ch] + w] + rest)[1..] == rest;
      assert ([w] + rest)[1..] == rest;
    }
  }

  lemma JoinConsEmpty(rest: seq<string>, sep: char)
    requires rest != []
    ensures Join([[]] + rest, sep) == [sep] + Join(rest, sep)
  {
    assert ([[]] + rest)[1..] == rest;
  }

  /** Split, capitalize and join agree with the character-by-character reading;
      the second half covers a first piece that is not capitalized. */
  lemma {:induction false} FormatKeyTitleCased(s: string)
    ensures Join(CapitalizeAll(Split(s, '_')), ' ') == TitleCased(s, true)
    ensures var ps := Split(s, '_'); Join([ps[0]] + CapitalizeAll(ps[1..]), ' ') == TitleCased(s, false)
  {
    var ps := Split(s, '_');
    if s == [] {
      assert ps == [[]];
    } else {
      var t := s[1..];
      var qs := Split(t, '_');
      FormatKeyTitleCased(t);
      if s[0] == '_' {
        assert ps == [[]] + qs;
        assert ps[1..] == qs;
        assert CapitalizeAll(ps) == [[]] + CapitalizeAll(qs);
        JoinConsEmpty(CapitalizeAll(qs), ' ');
      } else {
        assert ps == [[s[0]] + qs[0]] + qs[1..];
        assert ps[1..] == qs[1..];
        assert CapitalizeAll(ps) == [[Upper(s[0])] + qs[0]] + CapitalizeAll(qs[1..]);
        JoinConsChar(Upper(s[0]), qs[0], CapitalizeAll(qs[1..]), ' ');
        JoinConsChar(s[0], qs[0], CapitalizeAll(qs[1..]), ' ');
      }
    }
  }

  /** Character `i` of the reading: a space for `_`, the upper-case letter at a
      word start, the character itself otherwise. */
  lemma {:induction false} TitleCasedAt(s: string, atWordStart: bool, i: nat)
    requires i < |s|
    ensures TitleCased(s, atWordStart)[i]
         == if s[i] == '_' then ' '
            else if (i == 0 && atWordStart) || (i > 0 && s[i - 1] == '_') then Upper(s[i])
            else s[i]
  {
    if i > 0 {
      TitleCasedAt(s[1..], s[0] == '_', i - 1);
    }
  }

  /** The formatted key has the key's length, no `_`, a space wherever the key
      had `_`, an upper-cased first letter in every word and every other
      character unchanged. */
  lemma FormatKeyAt(key: string, i: nat)
    requires i < |key|
    ensures |FormatKey(key)| == |key| && '_' !in FormatKey(key)
    ensures FormatKey(key)[i]
         == if key[i] == '_' then ' '
            else if i == 0 || key[i - 1] == '_' then Upper(key[i])
            else key[i]
  {
    FormatKeyTitleCased(key);
    TitleCasedAt(key, true, i);
  }

  /** Without `_` the reading changes nothing past the first character. */
  lemma {:induction false} TitleCasedOneWord(s: string)
    requires '_' !in s
    ensures TitleCased(s, false) == s
    ensures TitleCased(s, true) == Capitalize(s)
  {
    if s != [] {
      TitleCasedOneWord(s[1..]);
    }
  }

  /** A key without `_` keeps all but its first character: `owner` shows as `Owner`. */
  lemma OneWordKey(key: string)
    requires '_' !in key
    ensures FormatKey(key) == Capitalize(key)
  {
    FormatKeyTitleCased(key);
    TitleCasedOneWord(key);
  }

  /** Formatting an already formatted key changes nothing. */
  lemma FormatKeyIdempotent(key: string)
    ensures FormatKey(FormatKey(key)) == FormatKey(key)
  {
    var r := FormatKey(key);
    FormatKeyTitleCased(key);
    OneWordKey(r);
    if key != [] {
      TitleCasedAt(key, true, 0);
      assert r == [r[0]] + r[1..];
      assert Upper(r[0]) == r[0];
    }
  }

  function CountChar(s: string, ch: char): nat {
    if s == [] then 0 else (if s[0] == ch then 1 else 0) + CountChar(s[1..], ch)
  }

  lemma {:induction false} CountCharAppend(a: string, b: string, ch: char)
    ensures CountChar(a + b, ch) == CountChar(a, ch) + CountChar(b, ch)
  {
    if a == [] {
      assert a + b == b;
    } else {
      assert (a + b)[1..] == a[1..] + b;
      CountCharAppend(a[1..], b, ch);
    }
  }

  lemma {:induction false} CountCharAbsent(s: string, ch: char)
    ensures ch !in s ==> CountChar(s, ch) == 0
  {
    if s != [] && ch !in s {
      assert ch !in s[1..];
      CountCharAbsent(s[1..], ch);
    }
  }

  /** There is one word per `_` plus one. */
  lemma {:induction false} PieceCount(s: string, sep: char)
    ensures |Split(s, sep)| == CountChar(s, sep) + 1
  {
    if s != [] {
      PieceCount(s[1..], sep);
    }
  }

  /** The value shown for `key`: a `due_date` string holding a `T` is cut before
      its first `T` (`value.split('T')[0]`); anything else is shown as it is. */
  function FormatValue(key: string, value: Json): (r: Json)
    ensures key == "due_date" && value.JStr? && 'T' in value.s ==>
              r.JStr? && 'T' !in r.s && |r.s| < |value.s| && value.s[..|r.s|] == r.s && value.s[|r.s|] == 'T'
    ensures !(key == "due_date" && value.JStr? && 'T' in value.s) ==> r == value
  {
    if key == "due_date" && Truthy(value) && value.JStr? && 'T' in value.s
    then JStr(Split(value.s, 'T')[0])
    else value
  }

  /** One `Key: value` line of a list entry. */
  datatype Line = Line(caption: string, value: Json)

  /** What the card's scroll area holds: the "No items available." note, or one
      list entry per item with one line per key of the item. */
  datatype CardBody = Placeholder | Entries(entries: seq<seq<Line>>)

  function RenderItem(item: seq<(string, Json)>): (r: seq<Line>)
    ensures |r| == |item|
    ensures forall j :: 0 <= j < |r| ==> r[j].caption == FormatKey(item[j].0) && '_' !in r[j].caption
    ensures forall j :: 0 <= j < |r| ==> r[j].value == FormatValue(item[j].0, item[j].1)
  {
    seq(|item|, j requires 0 <= j < |item| => Line(FormatKey(item[j].0), FormatValue(item[j].0, item[j].1)))
  }

  /** Each item is an object's entries, in `Object.entries` order. */
  function RenderCard(items: seq<seq<(string, Json)>>): (r: CardBody)
    ensures r.Placeholder? <==> |items| == 0
    ensures r.Entries? ==> |r.entries| == |items|
    ensures r.Entries? ==> forall i :: 0 <= i < |items| ==> r.entries[i] == RenderItem(items[i])
    ensures r.Entries? ==> forall i :: 0 <= i < |items| ==> |r.entries[i]| == |items[i]|
  {
    if |items| == 0 then Placeholder
    else Entries(seq(|items|, i requires 0 <= i < |items| => RenderItem(items[i])))
  }
}
