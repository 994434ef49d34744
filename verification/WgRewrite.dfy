/**
 What may be changed in a wg-quick text without changing its parse: any number of edits to each line -
 space around it, a comment behind it, the case of its key - and blank lines anywhere.
 */
module WgRewrite {
  import opened Common
  import opened GoStrings
  import opened WgConfig
  import opened WgParser
  import opened WgFormat

  /** One change to a line. */
  datatype Change =
    | Padded(before: string, after: string)
    | Commented(mark: char, comment: string)
    | Recased(key: string, other: string, val: string)   // the line is key=val and becomes other=val

  predicate Harmless(raw: string, c: Change) {
    match c
    case Padded(before, after) => AllSpace(before) && AllSpace(after)
    case Commented(mark, _) => Comments(mark)
    case Recased(key, other, val) =>
      && raw == key + "=" + val && '=' !in key && '#' !in key && ';' !in key
      && ToLower(other) == ToLower(key) && '=' !in other && '#' !in other && ';' !in other
      && !IsHeader(Clean(raw))
  }

  function Changed(raw: string, c: Change): string {
    match c
    case Padded(before, after) => before + raw + after
    case Commented(mark, comment) => raw + [mark] + comment
    case Recased(_, other, val) => other + "=" + val
  }

  predicate AllHarmless(raw: string, cs: seq<Change>)
    decreases |cs|
  {
    cs == [] || (Harmless(raw, cs[0]) && AllHarmless(Changed(raw, cs[0]), cs[1..]))
  }

  function ChangedAll(raw: string, cs: seq<Change>): string
    decreases |cs|
  {
    if cs == [] then raw else ChangedAll(Changed(raw, cs[0]), cs[1..])
  }

  /** One line of the new text: the next line of the old one with changes, or a blank one. */
  datatype Piece = Old(changes: seq<Change>) | Blank(text: string)

  /** The plan takes up every line of the old text once, in order, and changes none of them harmfully. */
  predicate Fits(raws: seq<string>, plan: seq<Piece>)
    decreases |plan|
  {
    if plan == [] then raws == []
    else
      match plan[0]
      case Old(cs) => raws != [] && AllHarmless(raws[0], cs) && Fits(raws[1..], plan[1..])
      case Blank(text) => Clean(text) == "" && Fits(raws, plan[1..])
  }

  function Rewritten(raws: seq<string>, plan: seq<Piece>): (lines: seq<string>)
    requires Fits(raws, plan)
    ensures |lines| == |plan| >= |raws|
    decreases |plan|
  {
    if plan == [] then []
    else
      match plan[0]
      case Old(cs) => [ChangedAll(raws[0], cs)] + Rewritten(raws[1..], plan[1..])
      case Blank(text) => [text] + Rewritten(raws, plan[1..])
  }

  // ---------- One change ----------

  /** A key without comment marks and what follows its equals sign are cleaned apart. */
  lemma {:induction false} CleanPair(key: string, val: string)
    requires '=' !in key && '#' !in key && ';' !in key
    ensures Clean(key + "=" + val) == TrimLeft(key) + "=" + TrimRight(StripComment(val))
  {
    hide Clean, StripComment, TrimSpace;
    CleanIsStripped(key + "=" + val);
    StripAfter(key + "=", val);
    TrimPair(key, StripComment(val));
  }

  lemma TrimPair(key: string, s: string)
    ensures TrimSpace(key + "=" + s) == TrimLeft(key) + "=" + TrimRight(s)
  {
    hide TrimLeft, TrimRight;
    TrimLeftUpTo(key, "=" + s);
    var x := TrimLeft(key) + "=";
    assert key + "=" + s == key + ("=" + s);
    assert x + s == TrimLeft(key) + ("=" + s);
    TrimRightDownTo(x, s);
  }

  lemma {:induction false} StripAfter(a: string, s: string)
    requires '#' !in a && ';' !in a
    ensures StripComment(a + s) == a + StripComment(s)
  {
    if a == "" {
      assert a + s == s;
    } else {
      assert (a + s)[1..] == a[1..] + s;
      assert a[0] in a && forall c :: c in a[1..] ==> c in a;
      StripAfter(a[1..], s);
    }
  }

  lemma {:induction false} TrimLeftUpTo(a: string, s: string)
    requires s != "" && !IsSpace(s[0])
    ensures TrimLeft(a + s) == TrimLeft(a) + s
  {
    if a == "" {
      assert a + s == s;
    } else if IsSpace(a[0]) {
      assert (a + s)[1..] == a[1..] + s;
      TrimLeftUpTo(a[1..], s);
    }
  }

  lemma {:induction false} TrimRightDownTo(a: string, s: string)
    requires a != "" && !IsSpace(a[|a| - 1])
    ensures TrimRight(a + s) == a + TrimRight(s)
    decreases |s|
  {
    if s == "" {
      assert a + s == a;
    } else {
      var last := |s| - 1;
      assert (a + s)[|a| + last] == s[last];
      if IsSpace(s[last]) {
        assert (a + s)[..|a| + last] == a + s[..last];
        TrimRightDownTo(a, s[..last]);
      }
    }
  }

  lemma {:induction false} TrimLeftKeeps(s: string)
    ensures forall c :: c in TrimLeft(s) ==> c in s
  {
    if s != "" && IsSpace(s[0]) {
      TrimLeftKeeps(s[1..]);
    }
  }

  lemma RecaseSays(key: string, other: string, val: string)
    requires Harmless(key + "=" + val, Recased(key, other, val))
    ensures Says(other + "=" + val) == Says(key + "=" + val)
  {
    CleanPair(key, val);
    CleanPair(other, val);
    LowerTrimLeft(key);
    LowerTrimLeft(other);
    TrimLeftKeeps(key);
    TrimLeftKeeps(other);
    KeyCaseDoesNotMatter(TrimLeft(key), TrimLeft(other), TrimRight(StripComment(val)));
  }

  lemma ChangeSays(raw: string, c: Change)
    requires Harmless(raw, c)
    ensures Says(Changed(raw, c)) == Says(raw)
  {
    match c {
      case Padded(before, after) => SpaceDoesNotMatter(before, raw, after);
      case Commented(mark, comment) => CommentDoesNotMatter(raw, mark, comment);
      case Recased(key, other, val) => RecaseSays(key, other, val);
    }
  }

  lemma {:induction false} ChangesSay(raw: string, cs: seq<Change>)
    requires AllHarmless(raw, cs)
    ensures Says(ChangedAll(raw, cs)) == Says(raw)
    decreases |cs|
  {
    hide Harmless, Changed, Says;
    if cs != [] {
      ChangeSays(raw, cs[0]);
      ChangesSay(Changed(raw, cs[0]), cs[1..]);
    }
  }

  // ---------- A whole text ----------

  lemma {:induction false} RewriteSays(raws: seq<string>, plan: seq<Piece>)
    requires Fits(raws, plan)
    ensures Contents(Rewritten(raws, plan)) == Contents(raws)
    decreases |plan|
  {
    hide AllHarmless, ChangedAll;
    if plan != [] {
      var lines := Rewritten(raws, plan);
      match plan[0] {
        case Old(cs) =>
          ChangesSay(raws[0], cs);
          RewriteSays(raws[1..], plan[1..]);
          assert lines[1..] == Rewritten(raws[1..], plan[1..]);
        case Blank(text) =>
          RewriteSays(raws, plan[1..]);
          assert lines[1..] == Rewritten(raws, plan[1..]);
      }
    }
  }

  /**
   A text and its rewriting line by line - any changes of padding, trailing comment and key case, with
   blank lines put in anywhere - parse to the same config, if either parses at all.
   */
  lemma RewritingDoesNotMatter(n: Net, text: string, plan: seq<Piece>)
    requires Fits(Split(text, '\n'), plan)
    requires var lines := Rewritten(Split(text, '\n'), plan); forall i :: 0 <= i < |lines| ==> '\n' !in lines[i]
    ensures var other := Join(Rewritten(Split(text, '\n'), plan), '\n');
            && (Parse(n, text).Ok? <==> Parse(n, other).Ok?)
            && (Parse(n, text).Ok? ==> Parse(n, other) == Parse(n, text))
  {
    hide Parse, Contents, AllHarmless;
    var lines := Rewritten(Split(text, '\n'), plan);
    RewriteSays(Split(text, '\n'), plan);
    SplitJoin(lines, '\n');
    if Parse(n, text).Ok? {
      SameContentsSameResult(n, text, Join(lines, '\n'));
    }
    if Parse(n, Join(lines, '\n')).Ok? {
      SameContentsSameResult(n, Join(lines, '\n'), text);
    }
  }
}
