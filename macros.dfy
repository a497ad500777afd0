/** Template interpolation for the command macros (src/macros.rs): `$NAME`, `${NAME}` and
    `$$` in a command template are replaced from an environment map. Positions are indices
    into the template, as the source's peekable character iterator walks it. */
module Macros {
  import opened Builder

  /** `is_ident_start`: '_' or an ASCII letter. */
  predicate IsIdentStart(c: char)
    ensures IsIdentStart(c) ==> c != '$' && c != '{' && c != '}'
  {
    c == '_' || ('a' <= c <= 'z') || ('A' <= c <= 'Z')
  }

  /** `is_ident_continue`: '_', an ASCII letter or an ASCII digit. */
  predicate IsIdentContinue(c: char)
    ensures IsIdentStart(c) ==> IsIdentContinue(c)
    ensures IsIdentContinue(c) ==> c != '$' && c != '{' && c != '}'
  {
    IsIdentStart(c) || ('0' <= c <= '9')
  }

  /** `resolve_var`: the variable's value, or the empty string when it is unset. The
      process environment is given as a map. */
  function ResolveVar(env: map<string, string>, name: string): (r: string)
    ensures name in env ==> r == env[name]
    ensures name !in env ==> r == ""
  {
    if name in env then env[name] else ""
  }

  /** Index just past the run of identifier characters that starts at `k`. */
  function IdentEnd(t: string, k: nat): (e: nat)
    requires k <= |t|
    ensures k <= e <= |t|
    ensures e < |t| ==> !IsIdentContinue(t[e])
    decreases |t| - k
  {
    if k < |t| && IsIdentContinue(t[k]) then IdentEnd(t, k + 1) else k
  }

  /** Every character of the run is an identifier character. */
  lemma {:induction false} IdentEndRun(t: string, k: nat)
    requires k <= |t|
    ensures forall j :: k <= j < IdentEnd(t, k) ==> IsIdentContinue(t[j])
    decreases |t| - k
  {
    if k < |t| && IsIdentContinue(t[k]) {
      IdentEndRun(t, k + 1);
    }
  }

  /** Index of the first '}' at or after `k`, or `|t|` when there is none. */
  function BraceEnd(t: string, k: nat): (e: nat)
    requires k <= |t|
    ensures k <= e <= |t|
    ensures e < |t| ==> t[e] == '}'
    decreases |t| - k
  {
    if k < |t| && t[k] != '}' then BraceEnd(t, k + 1) else k
  }

  /** No character before the end is a '}'. */
  lemma {:induction false} BraceEndRun(t: string, k: nat)
    requires k <= |t|
    ensures forall j :: k <= j < BraceEnd(t, k) ==> t[j] != '}'
    decreases |t| - k
  {
    if k < |t| && t[k] != '}' {
      BraceEndRun(t, k + 1);
    }
  }

  /** Where the piece that starts at `i` ends. A '$' starts a reference when followed by
      '$', '{' or an identifier start: `$$` is two characters; `${` runs up to and including
      the first '}', or to the end of the template when there is none; `$NAME` runs over the
      longest run of identifier characters. Any other '$', and any other character, is a
      piece on its own. */
  function PieceEnd(t: string, i: nat): (e: nat)
    requires i < |t|
    ensures i < e <= |t|
  {
    if t[i] != '$' || i + 1 == |t| then i + 1
    else if t[i + 1] == '$' then i + 2
    else if t[i + 1] == '{' then
      var e := BraceEnd(t, i + 2);
      if e < |t| then e + 1 else e
    else if IsIdentStart(t[i + 1]) then IdentEnd(t, i + 1)
    else i + 1
  }

  /** What the piece that starts at `i` expands to: `$$` gives '$', a reference the
      variable's value, anything else itself. */
  function Expansion(env: map<string, string>, t: string, i: nat): (r: string)
    requires i < |t|
    ensures PieceEnd(t, i) == i + 1 ==> r == [t[i]]
    ensures PieceEnd(t, i) > i + 1 ==> t[i] == '$'
    ensures PieceEnd(t, i) > i + 1 && t[i + 1] == '$' ==> r == "$"
    ensures env == map[] && PieceEnd(t, i) > i + 1 && t[i + 1] != '$' ==> r == ""
  {
    if t[i] != '$' || i + 1 == |t| then [t[i]]
    else if t[i + 1] == '$' then "$"
    else if t[i + 1] == '{' then ResolveVar(env, t[i + 2..BraceEnd(t, i + 2)])
    else if IsIdentStart(t[i + 1]) then ResolveVar(env, t[i + 1..IdentEnd(t, i + 1)])
    else "$"
  }

  /** The interpolation of the template from position `i` on, piece by piece. */
  function InterpolateFrom(env: map<string, string>, t: string, i: nat): (r: string)
    requires i <= |t|
    ensures env == map[] ==> |r| <= |t| - i
    decreases |t| - i
  {
    if i == |t| then [] else Expansion(env, t, i) + InterpolateFrom(env, t, PieceEnd(t, i))
  }

  /** The interpolated template. With no variable set, every reference expands to nothing
      and `$$` to one character, so the text never grows. */
  function Interpolate(env: map<string, string>, t: string): (r: string)
    ensures env == map[] ==> |r| <= |t|
  {
    InterpolateFrom(env, t, 0)
  }

  /** The name inside `${...}`: the characters from `from` up to the first '}', which is
      consumed; the rest of the template when there is none. */
  method ReadBracedName(template: string, from: nat) returns (name: string, next: nat)
    requires from <= |template|
    ensures name == template[from..BraceEnd(template, from)]
    ensures next == if BraceEnd(template, from) < |template| then BraceEnd(template, from) + 1
                    else |template|
  {
    next := from;
    var closed := false;
    name := [];
    while next < |template| && !closed
      invariant from <= next <= |template|
      invariant !closed ==> name == template[from..next] && BraceEnd(template, from) == BraceEnd(template, next)
      invariant closed ==> from + 1 <= next && name == template[from..next - 1]
                           && BraceEnd(template, from) == next - 1
      decreases |template| - next, !closed
    {
      var c := template[next];
      next := next + 1;
      if c == '}' {
        closed := true;
      } else {
        name := name + [c];
      }
    }
  }

  /** The name after a '$' that starts an identifier: the longest run of identifier
      characters from `from`. */
  method ReadIdentName(template: string, from: nat) returns (name: string)
    requires from < |template| && IsIdentStart(template[from])
    ensures name == template[from..IdentEnd(template, from)]
  {
    name := [template[from]];
    var i := from + 1;
    while i < |template| && IsIdentContinue(template[i])
      invariant from + 1 <= i <= |template|
      invariant name == template[from..i]
      invariant IdentEnd(template, from) == IdentEnd(template, i)
      decreases |template| - i
    {
      name := name + [template[i]];
      i := i + 1;
    }
  }

  /** One turn of `interpolate_command`'s loop at position `i`: what it appends to the
      output and where the next turn starts. */
  method NextPiece(env: map<string, string>, template: string, i: nat)
    returns (piece: string, next: nat)
    requires i < |template|
    ensures piece == Expansion(env, template, i) && next == PieceEnd(template, i)
  {
    if template[i] == '$' && i + 1 < |template| {
      var c := template[i + 1];
      if c == '$' {
        piece, next := ['$'], i + 2;
      } else if c == '{' {
        var name;
        name, next := ReadBracedName(template, i + 2);
        piece := ResolveVar(env, name);
      } else if IsIdentStart(c) {
        var name := ReadIdentName(template, i + 1);
        piece, next := ResolveVar(env, name), i + 1 + |name|;
      } else {
        piece, next := ['$'], i + 1;
      }
    } else {
      piece, next := [template[i]], i + 1;
    }
  }

  /** `interpolate_command`: a single pass over the template with one character of
      look-ahead, copying ordinary characters and replacing `$$`, `${NAME}` and `$NAME`. */
  method InterpolateCommand(env: map<string, string>, template: string) returns (out: string)
    ensures out == Interpolate(env, template)
  {
    out := [];
    var i := 0;
    while i < |template|
      invariant 0 <= i <= |template|
      invariant out + InterpolateFrom(env, template, i) == Interpolate(env, template)
      decreases |template| - i
    {
      var piece, next := NextPiece(env, template, i);
      InterpolateStep(env, template, i, out);
      out := out + piece;
      i := next;
    }
  }

  /** One piece more of the output. */
  lemma InterpolateStep(env: map<string, string>, t: string, i: nat, done: string)
    requires i < |t|
    ensures done + InterpolateFrom(env, t, i)
            == (done + Expansion(env, t, i)) + InterpolateFrom(env, t, PieceEnd(t, i))
  {
  }

  /** `literal_command`: the interpolated template run by the platform shell. */
  function LiteralCommand(env: map<string, string>, template: string): (c: Command)
    ensures c.program == "sh" && c.args == ["-c", Interpolate(env, template)]
    ensures c.env == [] && !c.clearEnv && c.currentDir.None?
  {
    Sh(Interpolate(env, template))
  }

  /** The identifier run from `k` is the one that ends at the first non-identifier
      character. */
  lemma {:induction false} IdentEndIs(t: string, k: nat, e: nat)
    requires k <= e <= |t|
    requires forall j :: k <= j < e ==> IsIdentContinue(t[j])
    requires e == |t| || !IsIdentContinue(t[e])
    ensures IdentEnd(t, k) == e
    decreases e - k
  {
    if k < e {
      IdentEndIs(t, k + 1, e);
    }
  }

  /** The braced name from `k` is the one that ends at the first '}'. */
  lemma {:induction false} BraceEndIs(t: string, k: nat, e: nat)
    requires k <= e <= |t|
    requires forall j :: k <= j < e ==> t[j] != '}'
    requires e == |t| || t[e] == '}'
    ensures BraceEnd(t, k) == e
    decreases e - k
  {
    if k < e {
      BraceEndIs(t, k + 1, e);
    }
  }

  /** Indexing and slicing after a prefix reach into the rest. */
  lemma SliceShift(p: string, r: string, a: nat, b: nat)
    requires a <= b <= |r|
    ensures forall m :: a <= m < b ==> (p + r)[|p| + m] == r[m]
    ensures (p + r)[|p| + a..|p| + b] == r[a..b]
  {
    assert (p + r)[|p|..] == r;
    assert (p + r)[|p| + a..|p| + b] == (p + r)[|p|..][a..b];
  }

  /** A braced name looks only forward. */
  lemma BracedShift(p: string, r: string, k: nat)
    requires k <= |r|
    ensures BraceEnd(p + r, |p| + k) == |p| + BraceEnd(r, k)
    ensures (p + r)[|p| + k..|p| + BraceEnd(r, k)] == r[k..BraceEnd(r, k)]
  {
    var t := p + r;
    var e := BraceEnd(r, k);
    BraceEndRun(r, k);
    SliceShift(p, r, k, e);
    if e < |r| {
      assert t[|p| + e] == r[e];
    }
    BraceEndIs(t, |p| + k, |p| + e);
  }

  /** An identifier run looks only forward. */
  lemma NamedShift(p: string, r: string, k: nat)
    requires k <= |r|
    ensures IdentEnd(p + r, |p| + k) == |p| + IdentEnd(r, k)
    ensures (p + r)[|p| + k..|p| + IdentEnd(r, k)] == r[k..IdentEnd(r, k)]
  {
    var t := p + r;
    var e := IdentEnd(r, k);
    IdentEndRun(r, k);
    SliceShift(p, r, k, e);
    if e < |r| {
      assert t[|p| + e] == r[e];
    }
    IdentEndIs(t, |p| + k, |p| + e);
  }

  /** A `${...}` piece looks only forward. */
  lemma BracedPieceShift(env: map<string, string>, p: string, r: string, j: nat)
    requires j + 1 < |r| && r[j] == '$' && r[j + 1] == '{'
    ensures PieceEnd(p + r, |p| + j) == |p| + PieceEnd(r, j)
    ensures Expansion(env, p + r, |p| + j) == Expansion(env, r, j)
  {
    SliceShift(p, r, j, j + 2);
    BracedShift(p, r, j + 2);
  }

  /** A `$NAME` piece looks only forward. */
  lemma NamedPieceShift(env: map<string, string>, p: string, r: string, j: nat)
    requires j + 1 < |r| && r[j] == '$' && IsIdentStart(r[j + 1])
    ensures PieceEnd(p + r, |p| + j) == |p| + PieceEnd(r, j)
    ensures Expansion(env, p + r, |p| + j) == Expansion(env, r, j)
  {
    SliceShift(p, r, j, j + 2);
    NamedShift(p, r, j + 1);
  }

  /** A piece looks only forward: after a prefix, it ends at the same place, shifted. */
  lemma PieceEndShift(env: map<string, string>, p: string, r: string, j: nat)
    requires j < |r|
    ensures PieceEnd(p + r, |p| + j) == |p| + PieceEnd(r, j)
  {
    SliceShift(p, r, j, if j + 2 <= |r| then j + 2 else j + 1);
    if r[j] == '$' && j + 1 < |r| {
      if r[j + 1] == '{' {
        BracedPieceShift(env, p, r, j);
      } else if IsIdentStart(r[j + 1]) {
        NamedPieceShift(env, p, r, j);
      }
    }
  }

  /** A piece looks only forward: after a prefix, it expands to the same text. */
  lemma ExpansionShift(env: map<string, string>, p: string, r: string, j: nat)
    requires j < |r|
    ensures Expansion(env, p + r, |p| + j) == Expansion(env, r, j)
  {
    SliceShift(p, r, j, if j + 2 <= |r| then j + 2 else j + 1);
    if r[j] == '$' && j + 1 < |r| {
      if r[j + 1] == '{' {
        BracedPieceShift(env, p, r, j);
      } else if IsIdentStart(r[j + 1]) {
        NamedPieceShift(env, p, r, j);
      }
    }
  }

  /** Interpolation looks only forward: after a prefix, the rest interpolates as it would
      on its own. */
  lemma {:induction false} InterpolateShift(env: map<string, string>, p: string, r: string, j: nat)
    requires j <= |r|
    ensures InterpolateFrom(env, p + r, |p| + j) == InterpolateFrom(env, r, j)
    decreases |r| - j
  {
    if j < |r| {
      var e := PieceEnd(r, j);
      InterpolateShift(env, p, r, e);
      ShiftStep(env, p, r, j, e);
    } else {
      assert |p| + j == |p + r|;
    }
  }

  /** The step of `InterpolateShift`: a shifted piece followed by a shifted rest. */
  lemma ShiftStep(env: map<string, string>, p: string, r: string, j: nat, e: nat)
    requires j < |r| && e == PieceEnd(r, j)
    requires InterpolateFrom(env, p + r, |p| + e) == InterpolateFrom(env, r, e)
    ensures InterpolateFrom(env, p + r, |p| + j) == InterpolateFrom(env, r, j)
  {
    var t := p + r;
    PieceEndShift(env, p, r, j);
    ExpansionShift(env, p, r, j);
    InterpolateUnfold(env, t, |p| + j);
    InterpolateUnfold(env, r, j);
    assert InterpolateFrom(env, t, |p| + j) == Expansion(env, r, j) + InterpolateFrom(env, t, |p| + e);
  }

  /** The first piece of the interpolation from `i`, and the rest. */
  lemma InterpolateUnfold(env: map<string, string>, t: string, i: nat)
    requires i < |t|
    ensures InterpolateFrom(env, t, i) == Expansion(env, t, i) + InterpolateFrom(env, t, PieceEnd(t, i))
  {
  }

  /** A character other than '$' is copied and the interpolation goes on after it. */
  lemma PlainStep(env: map<string, string>, t: string, k: nat)
    requires k < |t| && t[k] != '$'
    ensures InterpolateFrom(env, t, k) == [t[k]] + InterpolateFrom(env, t, k + 1)
  {
    InterpolateUnfold(env, t, k);
  }

  /** A template without '$' comes back unchanged. */
  lemma NoDollarUnchanged(env: map<string, string>, t: string)
    requires forall j :: 0 <= j < |t| ==> t[j] != '$'
    ensures Interpolate(env, t) == t
  {
    NoDollarFrom(env, t, 0);
  }

  lemma {:induction false} NoDollarFrom(env: map<string, string>, t: string, i: nat)
    requires i <= |t|
    requires forall j :: 0 <= j < |t| ==> t[j] != '$'
    ensures InterpolateFrom(env, t, i) == t[i..]
    decreases |t| - i
  {
    if i < |t| {
      PlainStep(env, t, i);
      NoDollarFrom(env, t, i + 1);
      assert t[i..] == [t[i]] + t[i + 1..];
    }
  }

  /** Every '$' doubled: the escaped form of a text. */
  function Escape(s: string): (r: string)
  {
    if s == [] then [] else (if s[0] == '$' then "$$" else [s[0]]) + Escape(s[1..])
  }

  /** `$$` is a literal '$', so escaping a text and interpolating it gives the text back,
      whatever the environment holds. */
  lemma {:induction false} EscapeRoundTrip(env: map<string, string>, s: string)
    ensures Interpolate(env, Escape(s)) == s
    decreases |s|
  {
    if s != [] {
      var head: string := if s[0] == '$' then "$$" else [s[0]];
      var tail := Escape(s[1..]);
      assert Escape(s) == head + tail;
      EscapeRoundTrip(env, s[1..]);
      InterpolateShift(env, head, tail, 0);
      assert PieceEnd(head + tail, 0) == |head|;
      assert [s[0]] + s[1..] == s;
    }
  }

  /** Characters before the first '$' are copied as they are. */
  lemma {:induction false} PrefixWithoutDollar(env: map<string, string>, plain: string, rest: string)
    requires forall j :: 0 <= j < |plain| ==> plain[j] != '$'
    ensures Interpolate(env, plain + rest) == plain + Interpolate(env, rest)
    decreases |plain|
  {
    if plain != [] {
      var tail := plain[1..] + rest;
      assert plain + rest == [plain[0]] + tail;
      PlainHead(env, plain[0], tail);
      PrefixWithoutDollar(env, plain[1..], rest);
      calc {
        Interpolate(env, plain + rest);
        [plain[0]] + Interpolate(env, tail);
        [plain[0]] + (plain[1..] + Interpolate(env, rest));
        { assert plain == [plain[0]] + plain[1..]; }
        plain + Interpolate(env, rest);
      }
    } else {
      assert plain + rest == rest;
    }
  }

  /** A first character other than '$' is copied. */
  lemma PlainHead(env: map<string, string>, c: char, s: string)
    requires c != '$'
    ensures Interpolate(env, [c] + s) == [c] + Interpolate(env, s)
  {
    var t := [c] + s;
    assert t[0] == c;
    PlainStep(env, t, 0);
    InterpolateShift(env, [c], s, 0);
  }

  /** `$NAME` takes the longest run of identifier characters after the '$' as the name; an
      unset name expands to nothing. */
  lemma DollarName(env: map<string, string>, name: string, rest: string)
    requires name != [] && IsIdentStart(name[0])
    requires forall j :: 0 <= j < |name| ==> IsIdentContinue(name[j])
    requires rest == [] || !IsIdentContinue(rest[0])
    ensures Interpolate(env, ['$'] + name + rest) == ResolveVar(env, name) + Interpolate(env, rest)
    ensures name !in env ==> Interpolate(env, ['$'] + name + rest) == Interpolate(env, rest)
  {
    var p := ['$'] + name;
    var t := p + rest;
    SliceShift(['$'], name + rest, 0, |name|);
    assert t == ['$'] + (name + rest);
    forall j | 1 <= j < |p|
      ensures IsIdentContinue(t[j])
    {
      assert t[j] == name[j - 1];
    }
    if rest != [] {
      assert t[|p|] == rest[0];
    }
    IdentEndIs(t, 1, |p|);
    assert t[0] == '$' && t[1] == name[0];
    InterpolateUnfold(env, t, 0);
    InterpolateShift(env, p, rest, 0);
  }

  /** `${NAME}` takes the text up to the first '}' as the name, whatever it holds. */
  lemma BracedName(env: map<string, string>, name: string, rest: string)
    requires forall j :: 0 <= j < |name| ==> name[j] != '}'
    ensures Interpolate(env, ['$', '{'] + name + ['}'] + rest)
            == ResolveVar(env, name) + Interpolate(env, rest)
  {
    var p := ['$', '{'] + name + ['}'];
    var t := p + rest;
    assert ['$', '{'] + name + ['}'] + rest == t;
    forall j | 2 <= j < |p| - 1
      ensures t[j] != '}'
    {
      assert t[j] == name[j - 2];
    }
    assert t[|p| - 1] == '}';
    BraceEndIs(t, 2, |p| - 1);
    assert t[2..|p| - 1] == name;
    assert t[0] == '$' && t[1] == '{';
    InterpolateUnfold(env, t, 0);
    InterpolateShift(env, p, rest, 0);
  }

  /** An unterminated `${` takes the rest of the template as the name. */
  lemma UnterminatedBrace(env: map<string, string>, name: string)
    requires forall j :: 0 <= j < |name| ==> name[j] != '}'
    ensures Interpolate(env, ['$', '{'] + name) == ResolveVar(env, name)
  {
    var t := ['$', '{'] + name;
    BraceEndIs(t, 2, |t|);
    assert t[0] == '$' && t[1] == '{' && t[2..|t|] == name;
    assert PieceEnd(t, 0) == |t| && Expansion(env, t, 0) == ResolveVar(env, name);
    assert InterpolateFrom(env, t, |t|) == [];
  }

  /** A '$' followed by nothing, or by a character that starts no reference, stays a '$'
      and the next character is read normally. */
  lemma LoneDollar(env: map<string, string>, rest: string)
    requires rest == [] || (rest[0] != '$' && rest[0] != '{' && !IsIdentStart(rest[0]))
    ensures Interpolate(env, ['$'] + rest) == ['$'] + Interpolate(env, rest)
  {
    InterpolateShift(env, ['$'], rest, 0);
  }

  /** `$$` is a single literal '$'. */
  lemma DoubleDollar(env: map<string, string>, rest: string)
    ensures Interpolate(env, ['$', '$'] + rest) == ['$'] + Interpolate(env, rest)
  {
    InterpolateShift(env, ['$', '$'], rest, 0);
  }

  /** The source's own example, for any variable name and value: with NAME set to VALUE,
      `echo $NAME ${NAME} $$` becomes `echo VALUE VALUE $`. */
  lemma Example(env: map<string, string>, name: string)
    requires name != [] && IsIdentStart(name[0])
    requires forall j :: 0 <= j < |name| ==> IsIdentContinue(name[j])
    requires name in env
    ensures Interpolate(env, "echo $" + name + " ${" + name + "} $$")
            == "echo " + env[name] + " " + env[name] + " $"
  {
    var part1 := " ${" + name + "} $$";
    var refs := "$" + name + part1;
    assert "echo $" + name + " ${" + name + "} $$" == "echo " + refs;
    PrefixWithoutDollar(env, "echo ", refs);
    ExampleTail(env, name);
    assert refs == ['$'] + name + part1;
    DollarName(env, name, part1);
    assert Interpolate(env, refs) == env[name] + " " + env[name] + " $";
  }

  /** The part of the example after `$NAME`. */
  lemma ExampleTail(env: map<string, string>, name: string)
    requires forall j :: 0 <= j < |name| ==> IsIdentContinue(name[j])
    requires name in env
    ensures Interpolate(env, " ${" + name + "} $$") == " " + env[name] + " $"
  {
    var part3 := " $$";
    var part2 := "${" + name + "}" + part3;
    ExampleDollars(env, part3);
    assert part2 == ['$', '{'] + name + ['}'] + part3;
    assert forall j :: 0 <= j < |name| ==> name[j] != '}';
    BracedName(env, name, part3);
    PrefixWithoutDollar(env, " ", part2);
    assert " ${" + name + "} $$" == " " + part2;
  }

  /** The example's last word: ` $$` gives ` $`. */
  lemma ExampleDollars(env: map<string, string>, part: string)
    requires part == " $$"
    ensures Interpolate(env, part) == " $"
  {
    assert part == [' '] + (['$', '$'] + []);
    DoubleDollar(env, []);
    PrefixWithoutDollar(env, " ", ['$', '$'] + []);
  }
}
