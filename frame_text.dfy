/**
 * The coordinate strings of sprite-sheet frames: a pair `{a,b}` and a
 * rectangle `{{x,y},{w,h}}`, as template literals render them from numbers,
 * and the reading of such strings back into numbers.
 */
module FrameText {
  import opened JsValue
  import opened NodePath

  /** `` `{${a},${b}}` ``. */
  function PointText(a: Json, b: Json): string
  {
    "{" + Text(a) + "," + Text(b) + "}"
  }

  /** `` `{{${x},${y}},{${w},${h}}}` ``. */
  function RectText(x: Json, y: Json, w: Json, h: Json): string
  {
    "{" + PointText(x, y) + "," + PointText(w, h) + "}"
  }

  /** A decimal integer: an optional minus sign, then canonical digits. */
  function ParseInt(t: string): Option<int>
  {
    if |t| >= 1 && t[0] == '-' && IsIndexKey(t[1..]) then
      var v: int := DigitsValue(t[1..]);
      Some(-v)
    else if IsIndexKey(t) then Some(DigitsValue(t))
    else None
  }

  /** The decimal text of an integer reads back as that integer. */
  lemma ParseIntOf(n: int)
    ensures ParseInt(IntToString(n)) == Some(n)
  {
    if n < 0 {
      ParseNegative(n);
    } else {
      ParseNatToString(n);
    }
  }

  lemma ParseNegative(n: int)
    requires n < 0
    ensures ParseInt(IntToString(n)) == Some(n)
  {
    var u := NatToString(-n);
    ParseNatToString(-n);
    var t := IntToString(n);
    assert t == "-" + u;
    assert t[1..] == u;
    assert t[0] == '-' && IsIndexKey(t[1..]) && DigitsValue(t[1..]) == -n;
  }

  /** The decimal text of an integer holds neither separator of the frame strings. */
  lemma IntToStringPlain(n: int)
    ensures ',' !in IntToString(n) && '}' !in IntToString(n)
  {
    IntToStringChars(n);
  }

  lemma IntToStringChars(n: int)
    ensures forall i :: 0 <= i < |IntToString(n)| ==> IntToString(n)[i] == '-' || '0' <= IntToString(n)[i] <= '9'
  {
    if n < 0 {
      var t := NatToString(-n);
      assert IntToString(n) == "-" + t;
      assert forall i :: 1 <= i < |IntToString(n)| ==> IntToString(n)[i] == t[i - 1];
    }
  }

  /** Reads `{a,b}` back into its two integers. */
  function ParsePoint(s: string): (r: Option<(int, int)>)
  {
    if |s| >= 2 && s[0] == '{' && s[|s| - 1] == '}' then
      var inner := s[1..|s| - 1];
      var a := BeforeFirst(inner, ',');
      if |a| < |inner| then
        match (ParseInt(a), ParseInt(inner[|a| + 1..]))
        case (Some(x), Some(y)) => Some((x, y))
        case _ => None
      else None
    else None
  }

  /** Reads `{{x,y},{w,h}}` back into its four integers. */
  function ParseRect(s: string): (r: Option<(int, int, int, int)>)
  {
    if |s| >= 2 && s[0] == '{' && s[|s| - 1] == '}' then
      var inner := s[1..|s| - 1];
      var p := BeforeFirst(inner, '}');
      if |p| + 1 < |inner| && inner[|p| + 1] == ',' then
        match (ParsePoint(p + "}"), ParsePoint(inner[|p| + 2..]))
        case (Some((x, y)), Some((w, h))) => Some((x, y, w, h))
        case _ => None
      else None
    else None
  }

  /** `{a,b}` splits at its first comma when `a` holds none. */
  lemma PointOfTexts(ta: string, tb: string)
    requires ',' !in ta
    ensures ParsePoint("{" + ta + "," + tb + "}") ==
      match (ParseInt(ta), ParseInt(tb))
      case (Some(x), Some(y)) => Some((x, y))
      case _ => None
  {
    var s := "{" + ta + "," + tb + "}";
    var inner := s[1..|s| - 1];
    assert inner == ta + [','] + tb;
    BeforeFirstOf(ta, ',', tb);
    assert inner[|ta| + 1..] == tb;
  }

  /** A pair of numbers rendered as `{a,b}` reads back as the same pair. */
  lemma ParsePointText(a: int, b: int)
    ensures ParsePoint(PointText(Num(a), Num(b))) == Some((a, b))
  {
    IntToStringPlain(a);
    ParseIntOf(a);
    ParseIntOf(b);
    PointOfTexts(IntToString(a), IntToString(b));
  }

  /** `{p},q}` splits after the first closing brace when `p` holds none. */
  lemma RectOfPoints(head: string, second: string)
    requires '}' !in head
    ensures ParseRect("{" + (head + "}") + "," + second + "}") ==
      match (ParsePoint(head + "}"), ParsePoint(second))
      case (Some((x, y)), Some((w, h))) => Some((x, y, w, h))
      case _ => None
  {
    var s := "{" + (head + "}") + "," + second + "}";
    var inner := s[1..|s| - 1];
    assert inner == head + ['}'] + ([','] + second);
    BeforeFirstOf(head, '}', [','] + second);
    assert inner[|head| + 2..] == second;
  }

  /** A rendered pair is a brace-free head followed by its one closing brace. */
  lemma PointHead(a: int, b: int)
    ensures PointText(Num(a), Num(b)) == ("{" + IntToString(a) + "," + IntToString(b)) + "}"
    ensures '}' !in "{" + IntToString(a) + "," + IntToString(b)
  {
    IntToStringPlain(a);
    IntToStringPlain(b);
  }

  /** A rectangle of numbers rendered as `{{x,y},{w,h}}` reads back as the same four numbers. */
  lemma ParseRectText(x: int, y: int, w: int, h: int)
    ensures ParseRect(RectText(Num(x), Num(y), Num(w), Num(h))) == Some((x, y, w, h))
  {
    PointHead(x, y);
    RectOfPoints("{" + IntToString(x) + "," + IntToString(y), PointText(Num(w), Num(h)));
    ParsePointText(x, y);
    ParsePointText(w, h);
  }
}
