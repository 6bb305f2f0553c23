/** JSON values, pointers into them (RFC 6901) and patches (RFC 6902, section 4). */
module JsonPatch {
  import opened Wrappers
  import opened Texts

  /** A number is kept as the text it was written with. */
  datatype JSON =
    | Null
    | Bool(b: bool)
    | Number(digits: string)
    | Text(s: string)
    | Array(items: seq<JSON>)
    | Object(members: map<string, JSON>)

  // ------------------------------------------------------------------------ pointers

  function Child(doc: JSON, t: string): Option<JSON> {
    match doc
    case Object(m) => if t in m then Some(m[t]) else None
    case Array(items) =>
      var i := ParseIndex(t);
      if i.Some? && i.value < |items| then Some(items[i.value]) else None
    case _ => None
  }

  function Lookup(doc: JSON, path: seq<string>): Option<JSON> {
    if path == [] then Some(doc)
    else
      var c := Child(doc, path[0]);
      if c.None? then None else Lookup(c.value, path[1..])
  }

  function Put(doc: JSON, t: string, v: JSON): (r: JSON)
    requires Child(doc, t).Some?
  {
    match doc
    case Object(m) => Object(m[t := v])
    case Array(items) => Array(items[ParseIndex(t).value := v])
  }

  function Replaced(s: string, c: char, w: string): string {
    if s == [] then [] else (if s[0] == c then w else [s[0]]) + Replaced(s[1..], c, w)
  }

  /** Two passes: every tilde first, then every slash. */
  function Escape(s: string): string { Replaced(Replaced(s, '~', "~0"), '/', "~1") }

  function Unescape(s: string): Option<string> {
    if s == [] then Some([])
    else if s[0] != '~' then
      var rest := Unescape(s[1..]);
      if rest.None? then None else Some([s[0]] + rest.value)
    else if |s| >= 2 && (s[1] == '0' || s[1] == '1') then
      var rest := Unescape(s[2..]);
      if rest.None? then None else Some([if s[1] == '0' then '~' else '/'] + rest.value)
    else None
  }

  function Pointer(path: seq<string>): string {
    if path == [] then [] else "/" + Escape(path[0]) + Pointer(path[1..])
  }

  /** The text before the first slash. */
  function Segment(s: string): (t: string)
    ensures t <= s && '/' !in t && (|t| == |s| || s[|t|] == '/')
  {
    if s == [] || s[0] == '/' then [] else [s[0]] + Segment(s[1..])
  }

  /** The reference tokens of a pointer, as section 3 of RFC 6901 reads it. */
  function ParsePointer(p: string): Option<seq<string>>
    decreases |p|
  {
    if p == [] then Some([])
    else if p[0] != '/' then None
    else
      var t := Segment(p[1..]);
      var head, rest := Unescape(t), ParsePointer(p[1 + |t|..]);
      if head.None? || rest.None? then None else Some([head.value] + rest.value)
  }

  lemma {:induction false} EscapeStep(c: char, s: string)
    ensures Escape([c] + s) == (if c == '~' then "~0" else if c == '/' then "~1" else [c]) + Escape(s)
  {
    var one := Replaced(s, '~', "~0");
    ReplacedStep(c, s, '~', "~0");
    if c == '~' {
      assert "~0" + one == ['~'] + (['0'] + one);
      ReplacedStep('~', ['0'] + one, '/', "~1");
      ReplacedStep('0', one, '/', "~1");
    } else {
      ReplacedStep(c, one, '/', "~1");
    }
  }

  lemma ReplacedStep(x: char, s: string, c: char, w: string)
    ensures Replaced([x] + s, c, w) == (if x == c then w else [x]) + Replaced(s, c, w)
  {
    assert ([x] + s)[1..] == s;
  }

  /** Escaping loses nothing, and leaves no slash behind. */
  lemma {:induction false} EscapeInverts(s: string)
    ensures Unescape(Escape(s)) == Some(s) && '/' !in Escape(s)
  {
    if s != [] {
      assert s == [s[0]] + s[1..];
      EscapeStep(s[0], s[1..]);
      EscapeInverts(s[1..]);
      var e := Escape(s);
      var rest := Escape(s[1..]);
      if s[0] == '~' || s[0] == '/' { assert e[2..] == rest; } else { assert e[1..] == rest; }
    }
  }

  lemma {:induction false} SegmentOf(t: string, rest: string)
    requires '/' !in t && (rest == [] || rest[0] == '/')
    ensures Segment(t + rest) == t
  {
    if t != [] {
      assert (t + rest)[1..] == t[1..] + rest;
      SegmentOf(t[1..], rest);
    }
  }

  lemma ParsePointerStep(t: string, rest: string)
    requires Segment(t + rest) == t && Unescape(t).Some? && ParsePointer(rest).Some?
    ensures ParsePointer("/" + t + rest) == Some([Unescape(t).value] + ParsePointer(rest).value)
  {
    var p := "/" + t + rest;
    assert p[1..] == t + rest && p[1 + |t|..] == rest;
  }

  /** Printing a path and reading it back gives the path. */
  lemma {:induction false} PointerInverts(path: seq<string>)
    ensures ParsePointer(Pointer(path)) == Some(path)
  {
    if path != [] {
      var t, rest := Escape(path[0]), Pointer(path[1..]);
      EscapeInverts(path[0]);
      PointerInverts(path[1..]);
      SegmentOf(t, rest);
      ParsePointerStep(t, rest);
      assert path == [path[0]] + path[1..];
    }
  }

  // ------------------------------------------------------------------------- patches

  datatype Edit = Add(after: JSON) | Remove(before: JSON) | Replace(before: JSON, after: JSON)

  datatype Change = Change(path: seq<string>, edit: Edit)

  function Before(e: Edit): Option<JSON> { if e.Add? then None else Some(e.before) }

  function After(e: Edit): Option<JSON> { if e.Remove? then None else Some(e.after) }

  /** The edit at the last token of a path. */
  function PatchHere(doc: JSON, t: string, e: Edit): Option<JSON> {
    match doc
    case Object(m) =>
      (match e
       case Add(v) => Some(Object(m[t := v]))
       case Remove(_) => if t in m then Some(Object(m - {t})) else None
       case Replace(_, v) => if t in m then Some(Object(m[t := v])) else None)
    case Array(items) =>
      var at := if e.Add? && t == "-" then Some(|items|) else ParseIndex(t);
      if at.None? then None else
      var i := at.value;
      (match e
       case Add(v) => if i <= |items| then Some(Array(items[..i] + [v] + items[i..])) else None
       case Remove(_) => if i < |items| then Some(Array(items[..i] + items[i + 1..])) else None
       case Replace(_, v) => if i < |items| then Some(Array(items[i := v])) else None)
    case _ => None
  }

  /** One operation of RFC 6902: the before value plays no part. */
  function Patch(doc: JSON, path: seq<string>, e: Edit): Option<JSON>
    decreases |path|
  {
    if path == [] then (if e.Remove? then None else Some(e.after))
    else if |path| == 1 then PatchHere(doc, path[0], e)
    else
      var c := Child(doc, path[0]);
      if c.None? then None else
      var r := Patch(c.value, path[1..], e);
      if r.None? then None else Some(Put(doc, path[0], r.value))
  }

  function PatchAll(doc: JSON, cs: seq<Change>): Option<JSON>
    decreases |cs|
  {
    if cs == [] then Some(doc)
    else
      var r := Patch(doc, cs[0].path, cs[0].edit);
      if r.None? then None else PatchAll(r.value, cs[1..])
  }

  /** The change applies, and what it says of its place is true before and after. */
  predicate Fits(doc: JSON, c: Change) {
    var r := Patch(doc, c.path, c.edit);
    r.Some? && Lookup(doc, c.path) == Before(c.edit) && Lookup(r.value, c.path) == After(c.edit)
  }

  /** Applying changes one after another, each of which must fit. */
  function Replay(doc: JSON, cs: seq<Change>): Option<JSON>
    decreases |cs|
  {
    if cs == [] then Some(doc)
    else if !Fits(doc, cs[0]) then None
    else Replay(Patch(doc, cs[0].path, cs[0].edit).value, cs[1..])
  }

  lemma {:induction false} ReplayIsPatch(doc: JSON, cs: seq<Change>)
    requires Replay(doc, cs).Some?
    ensures PatchAll(doc, cs) == Replay(doc, cs)
    decreases |cs|
  {
    if cs != [] { ReplayIsPatch(Patch(doc, cs[0].path, cs[0].edit).value, cs[1..]); }
  }

  lemma {:induction false} ReplayJoins(doc: JSON, xs: seq<Change>, ys: seq<Change>)
    requires Replay(doc, xs).Some?
    ensures Replay(doc, xs + ys) == Replay(Replay(doc, xs).value, ys)
    decreases |xs|
  {
    if xs == [] {
      assert xs + ys == ys;
    } else {
      assert (xs + ys)[1..] == xs[1..] + ys;
      ReplayJoins(Patch(doc, xs[0].path, xs[0].edit).value, xs[1..], ys);
    }
  }

  // ----------------------------------------------------------------------- inversion

  function InvertEdit(e: Edit): Edit {
    match e
    case Add(v) => Remove(v)
    case Remove(v) => Add(v)
    case Replace(v, w) => Replace(w, v)
  }

  function Invert(c: Change): Change { Change(c.path, InvertEdit(c.edit)) }

  /** The inverses, last change first. */
  function Inverted(cs: seq<Change>): seq<Change> {
    if cs == [] then [] else Inverted(cs[1..]) + [Invert(cs[0])]
  }

  lemma PutBack(doc: JSON, t: string, v: JSON, w: JSON)
    requires Child(doc, t).Some?
    ensures Child(Put(doc, t, v), t) == Some(v) && Put(Put(doc, t, v), t, w) == Put(doc, t, w)
    ensures Put(doc, t, Child(doc, t).value) == doc
  {
    match doc
    case Object(m) => assert m[t := v][t := w] == m[t := w] && m[t := m[t]] == m;
    case Array(items) =>
  }

  lemma InvertHere(doc: JSON, t: string, e: Edit)
    requires Fits(doc, Change([t], e))
    ensures PatchHere(PatchHere(doc, t, e).value, t, InvertEdit(e)) == Some(doc)
  {
    var r := PatchHere(doc, t, e).value;
    assert Lookup(doc, [t]) == Child(doc, t) && Lookup(r, [t]) == Child(r, t);
    match doc {
      case Object(m) =>
        assert e.Add? ==> m[t := e.after] - {t} == m;
        assert !e.Add? ==> m[t := e.before] == m && (m - {t})[t := e.before] == m;
        assert e.Replace? ==> m[t := e.after][t := e.before] == m;
      case Array(items) =>
        var i := ParseIndex(t).value;
        assert e.Add? ==> r.items[..i] + r.items[i + 1..] == items;
        assert e.Remove? ==> r.items[..i] + [e.before] + r.items[i..] == items;
        assert e.Replace? ==> r.items[i := e.before] == items;
    }
  }

  /** A change that fits is undone by its inverse. */
  lemma {:induction false} InvertUndoes(doc: JSON, path: seq<string>, e: Edit)
    requires Fits(doc, Change(path, e))
    ensures Patch(Patch(doc, path, e).value, path, InvertEdit(e)) == Some(doc)
    decreases |path|
  {
    if |path| == 1 {
      assert path == [path[0]];
      InvertHere(doc, path[0], e);
    } else if |path| > 1 {
      var c := Child(doc, path[0]).value;
      var r := Patch(c, path[1..], e).value;
      PutBack(doc, path[0], r, c);
      InvertUndoes(c, path[1..], e);
    }
  }

  /** A replay is undone by the inverted changes in reverse order. */
  lemma {:induction false} InvertedUndoes(doc: JSON, cs: seq<Change>)
    requires Replay(doc, cs).Some?
    ensures Replay(Replay(doc, cs).value, Inverted(cs)) == Some(doc)
    decreases |cs|
  {
    if cs != [] {
      var c := cs[0];
      var next := Patch(doc, c.path, c.edit).value;
      var end := Replay(doc, cs).value;
      InvertedUndoes(next, cs[1..]);
      InvertUndoes(doc, c.path, c.edit);
      ReplayJoins(end, Inverted(cs[1..]), [Invert(c)]);
      assert Fits(next, Invert(c));
      assert Replay(next, [Invert(c)]) == Some(doc);
    }
  }
}
