/**
 * Generation of the Metal Shading Language source of the combine pass: a
 * fragment function with one texture parameter per (opacity, power) entry that
 * returns the weighted, optionally gamma-corrected, sum of the samples.
 *
 * Swift's formatting of a `Float` inside a string interpolation is not
 * modelled; every text-producing member takes it as the parameter `show`.
 */
module CombineShader {

  // ---------------------------------------------------------------------------
  // Decimal text of slot numbers (`\(i)` on an `Int`)
  // ---------------------------------------------------------------------------

  predicate IsDigit(c: char)
  {
    '0' <= c <= '9'
  }

  function Digit(d: nat): (c: char)
    requires d < 10
    ensures IsDigit(c)
  {
    (('0' as int) + d) as char
  }

  function NatToString(n: nat): (s: string)
    ensures |s| > 0
    ensures forall k :: 0 <= k < |s| ==> IsDigit(s[k])
  {
    if n < 10 then [Digit(n)] else NatToString(n / 10) + [Digit(n % 10)]
  }

  /** Reads a string of decimal digits back as a number. */
  function ParseNat(s: string): nat
    requires forall k :: 0 <= k < |s| ==> IsDigit(s[k])
  {
    if s == [] then 0
    else
      var last := s[|s| - 1];
      assert IsDigit(last);
      ParseNat(s[..|s| - 1]) * 10 + ((last as int) - ('0' as int))
  }

  lemma {:induction false} ParseNatToString(n: nat)
    ensures ParseNat(NatToString(n)) == n
  {
    var s := NatToString(n);
    if n >= 10 {
      ParseNatToString(n / 10);
      assert s[..|s| - 1] == NatToString(n / 10);
    }
  }

  /** Distinct slots are printed differently. */
  lemma NatToStringInjective(i: nat, j: nat)
    requires NatToString(i) == NatToString(j)
    ensures i == j
  {
    ParseNatToString(i);
    ParseNatToString(j);
  }

  // ---------------------------------------------------------------------------
  // Facts about concatenation, stated once for arbitrary strings so that the
  // long literals below are never taken apart character by character
  // ---------------------------------------------------------------------------

  lemma Assoc(a: string, b: string, c: string)
    ensures (a + b) + c == a + (b + c)
  {
  }

  lemma RightUnit(a: string)
    ensures a + "" == a
  {
  }

  lemma PrefixKept(p: string, a: string, b: string)
    requires p <= a
    ensures p <= a + b
  {
    assert (a + b)[..|p|] == a[..|p|];
  }

  lemma Cancel(p: string, a: string, b: string)
    requires p + a == p + b
    ensures a == b
  {
    assert a == (p + a)[|p|..];
  }

  // ---------------------------------------------------------------------------
  // The fixed parts of the shader
  // ---------------------------------------------------------------------------

  /** Opens the Metal namespace and includes the standard library. */
  function Header(): (s: string)
    ensures "using namespace metal;" <= s
  {
    "using namespace "
    + "metal;\n#include "
    + "<metal_stdlib>"
  }

  /** Declares the vertex-to-fragment record `ColorInOut`, the type both shader functions use. */
  function Struct(): (s: string)
    ensures StructOpen <= s
    ensures |StructClose| <= |s| && s[|s| - |StructClose|..] == StructClose
  {
    var fields := "\n\tfloat4 position "
      + "[[position]];\n\tfloat2 "
      + "texCoord;\n";
    PrefixKept(StructOpen, StructOpen, fields);
    PrefixKept(StructOpen, StructOpen + fields, StructClose);
    assert (StructOpen + fields + StructClose)[|StructOpen + fields|..] == StructClose;
    StructOpen + fields + StructClose
  }

  const StructOpen := "typedef struct\n{"
  /** The closing brace and the name of the record. */
  const StructClose := "} ColorInOut;"

  /** The vertex function, one source line at a time; it is the entry point `gaussianComp_vertex`. */
  function VertexShader(): (s: string)
    ensures VertexEntry <= s
  {
    var open := VertexOpen();
    PrefixKept(VertexEntry, open, VertexCoords());
    PrefixKept(VertexEntry, open + VertexCoords(), VertexTexCoords());
    PrefixKept(VertexEntry, open + VertexCoords() + VertexTexCoords(), VertexLookup());
    PrefixKept(VertexEntry, open + VertexCoords() + VertexTexCoords() + VertexLookup(), VertexReturn());
    open + VertexCoords() + VertexTexCoords() + VertexLookup() + VertexReturn()
  }

  /** The declaration of the vertex entry point, up to its parameter list. */
  const VertexEntry := "vertex ColorInOut "
    + "gaussianComp_vertex("

  function VertexOpen(): (s: string)
    ensures VertexEntry <= s
  {
    var rest := "uint vid "
      + "[[vertex_id]]) "
      + "{\n";
    PrefixKept(VertexEntry, VertexEntry, rest);
    VertexEntry + rest
  }

  function VertexCoords(): string
  {
    "\tconst float2 coords[] "
    + "= {float2(-1.0, "
    + "-1.0), float2(1.0,"
    + " -1.0), float2(-1.0,"
    + " 1.0), float2(1.0,"
    + " 1.0)};\n"
  }

  function VertexTexCoords(): string
  {
    "\tconst float2 texc[] "
    + "= {float2(0.0, 1.0),"
    + " float2(1.0, 1.0),"
    + " float2(0.0, 0.0),"
    + " float2(1.0, 0.0)}"
    + ";\n"
  }

  function VertexLookup(): string
  {
    "\tconst int lu[] "
    + "= {0, 1, 2, 2, 1,"
    + " 3};\n\n\tColorInOut "
    + "out;\n\tout.texCoord "
    + "= texc[lu[vid]];"
    + "\n"
  }

  function VertexReturn(): string
  {
    "\tout.position = "
    + "float4(coords[lu[vid]],"
    + " 0.0, 1.0);\n\treturn "
    + "out;\n}"
  }

  /** The declaration of the fragment entry point, up to its parameter list. */
  const FragmentEntry := "fragment float4 "
    + "gaussianComp_fragment("
  const Signature := FragmentEntry
    + "ColorInOut texCoord "
    + "[[stage_in]]"
  const SamplerLine := "\tconstexpr sampler "
    + "colorSampler(mip_filter::linear,"
    + " mag_filter::linear,"
    + " min_filter::linear);"
    + "\n\n\treturn "
  const BodyOpen := ") {\n\n\t"
  const BodyClose := ";\n}"

  /** Everything in front of the fragment function; it does not depend on the entries. */
  function Prelude(): string
  {
    Header() + "\n\n" + Struct() + "\n\n" + VertexShader() + "\n\n"
  }

  // ---------------------------------------------------------------------------
  // The fragment function, piece by piece
  // ---------------------------------------------------------------------------

  /** The parameter binding texture slot `i`. */
  function TextureParam(i: nat): string
  {
    ",\n\t\t\ttexture2d<float> texture" + NatToString(i) + " [[texture(" + NatToString(i) + ")]]"
  }

  /** The parameters for slots 0 .. n-1, in increasing order. */
  function Params(n: nat): string
  {
    if n == 0 then "" else Params(n - 1) + TextureParam(n - 1)
  }

  function Sample(i: nat): string
  {
    "texture" + NatToString(i) + ".sample(colorSampler, texCoord.texCoord)"
  }

  /** The weighted sample of slot `i`; `pow` is applied only when the power is not 1. */
  function Term(i: nat, w: (real, real), show: real -> string): string
  {
    if w.1 == 1.0 then "(" + Sample(i) + " * " + show(w.0) + ")"
    else "(pow(" + Sample(i) + ", " + show(w.1) + ") * " + show(w.0) + ")"
  }

  /** The line of the sum for slot `i`: every term but the first is prefixed by `+`. */
  function TermLine(i: nat, w: (real, real), show: real -> string): string
  {
    "\t\t" + (if i != 0 then "+" else "") + Term(i, w, show)
  }

  function Terms(ws: seq<(real, real)>, show: real -> string): string
  {
    if ws == [] then ""
    else
      var n := |ws| - 1;
      Terms(ws[..n], show) + TermLine(n, ws[n], show)
  }

  /** What follows the parameter list: the sampler, `return ` and the sum. */
  function Body(ws: seq<(real, real)>, show: real -> string): string
  {
    BodyOpen + (SamplerLine + Terms(ws, show)) + BodyClose
  }

  function Fragment(ws: seq<(real, real)>, show: real -> string): string
  {
    Signature + Params(|ws|) + Body(ws, show)
  }

  function ShaderString(ws: seq<(real, real)>, show: real -> string): string
  {
    Prelude() + Fragment(ws, show)
  }

  /** Appending the parameter of slot `i` extends the list by one slot. */
  lemma ParamsStep(head: string, i: nat)
    ensures head + Params(i) + TextureParam(i) == head + Params(i + 1)
  {
    Assoc(head, Params(i), TextureParam(i));
  }

  /** Appending the line of slot `i`, piece by piece, extends the sum by one entry. */
  lemma TermsStep(head: string, ws: seq<(real, real)>, i: nat, show: real -> string)
    requires i < |ws|
    ensures i != 0 ==> head + Terms(ws[..i], show) + "\t\t" + "+" + Term(i, ws[i], show) == head + Terms(ws[..i + 1], show)
    ensures i == 0 ==> head + Terms(ws[..i], show) + "\t\t" + Term(i, ws[i], show) == head + Terms(ws[..i + 1], show)
  {
    assert ws[..i + 1][..i] == ws[..i];
    var t := Terms(ws[..i], show);
    var term := Term(i, ws[i], show);
    var line := TermLine(i, ws[i], show);
    assert Terms(ws[..i + 1], show) == t + line;
    Assoc(head, t, line);
    if i != 0 {
      assert line == "\t\t" + "+" + term;
      Assoc(head + t, "\t\t", "+");
      Assoc(head + t, "\t\t" + "+", term);
    } else {
      assert line == "\t\t" + "" + term;
      RightUnit("\t\t");
      Assoc(head + t, "\t\t", term);
    }
  }

  lemma Assemble(top: string, open: string, sum: string, close: string)
    ensures top + open + sum + close == top + (open + sum + close)
  {
  }

  // ---------------------------------------------------------------------------
  // The generator object
  // ---------------------------------------------------------------------------

  class DynamicTextureCombineShader {
    const settingsList: seq<(real, real)>

    constructor (list: seq<(real, real)>)
      ensures settingsList == list
    {
      settingsList := list;
    }

    /** Builds the parameter list and the sum entry by entry. */
    method FragmentShader(show: real -> string) returns (text: string)
      ensures text == Fragment(settingsList, show)
    {
      var top := Signature;
      var sum := SamplerLine;
      RightUnit(Signature);
      RightUnit(SamplerLine);
      assert settingsList[..0] == [];
      for i := 0 to |settingsList|
        invariant top == Signature + Params(i)
        invariant sum == SamplerLine + Terms(settingsList[..i], show)
      {
        var level := settingsList[i];
        ParamsStep(Signature, i);
        top := top + TextureParam(i);
        TermsStep(SamplerLine, settingsList, i, show);
        sum := sum + "\t\t";
        if i != 0 {
          sum := sum + "+";
        }
        sum := sum + Term(i, level, show);
      }
      assert settingsList[..|settingsList|] == settingsList;
      text := top + BodyOpen + sum + BodyClose;
      Assemble(top, BodyOpen, sum, BodyClose);
    }

    method GetShaderString(show: real -> string) returns (text: string)
      ensures text == ShaderString(settingsList, show)
    {
      var fragment := FragmentShader(show);
      text := Prelude() + fragment;
    }
  }

  // ---------------------------------------------------------------------------
  // Properties of the generated text
  // ---------------------------------------------------------------------------

  /** A term samples through `pow` exactly when its power is not 1. */
  lemma TermUsesPowIff(i: nat, w: (real, real), show: real -> string)
    ensures var t := Term(i, w, show); (|t| >= 5 && t[..5] == "(pow(") <==> w.1 != 1.0
  {
    var t := Term(i, w, show);
    if w.1 == 1.0 {
      assert t[..5] == "(text";
    } else {
      assert t[..5] == "(pow(";
    }
  }

  /** The parameters of two different slots are different texts. */
  lemma TextureParamInjective(i: nat, j: nat)
    requires TextureParam(i) == TextureParam(j)
    ensures i == j
  {
    var lead := ",\n\t\t\ttexture2d<float> texture";
    var a, b := NatToString(i), NatToString(j);
    var ra := " [[texture(" + a + ")]]";
    var rb := " [[texture(" + b + ")]]";
    assert TextureParam(i) == lead + a + ra;
    assert TextureParam(j) == lead + b + rb;
    assert |a| == |b|;
    assert a == TextureParam(i)[|lead|..|lead| + |a|];
    assert b == TextureParam(j)[|lead|..|lead| + |b|];
    NatToStringInjective(i, j);
  }

  lemma {:induction false} ParamsPrefix(m: nat, n: nat)
    requires m < n
    ensures |Params(m)| < |Params(n)|
    ensures Params(n)[..|Params(m)|] == Params(m)
    ensures Params(n)[|Params(m)|] == ','
  {
    var p, t := Params(n - 1), TextureParam(n - 1);
    assert Params(n) == p + t;
    LeadingComma(n - 1);
    if m == n - 1 {
      CommaAfter(p, t);
    } else {
      ParamsPrefix(m, n - 1);
      CommaKept(Params(m), p, t);
    }
  }

  lemma LeadingComma(i: nat)
    ensures |TextureParam(i)| > 0 && TextureParam(i)[0] == ','
  {
    var lead := ",\n\t\t\ttexture2d<float> texture";
    assert TextureParam(i) == lead + (NatToString(i) + " [[texture(" + NatToString(i) + ")]]");
    IndexLeft(lead, NatToString(i) + " [[texture(" + NatToString(i) + ")]]", 0);
  }

  lemma CommaAfter(p: string, t: string)
    requires |t| > 0 && t[0] == ','
    ensures |p| < |p + t| && (p + t)[..|p|] == p && (p + t)[|p|] == ','
  {
    assert (p + t)[..|p|] == p;
  }

  lemma CommaKept(q: string, p: string, t: string)
    requires |q| < |p| && p[..|q|] == q && p[|q|] == ','
    ensures |q| < |p + t| && (p + t)[..|q|] == q && (p + t)[|q|] == ','
  {
    assert (p + t)[..|q|] == p[..|q|];
  }

  /**
   * The fragment text determines the number of textures it binds: two entry
   * lists of different lengths never produce the same fragment.
   */
  lemma FragmentDeterminesCount(a: seq<(real, real)>, b: seq<(real, real)>, show: real -> string)
    requires Fragment(a, show) == Fragment(b, show)
    ensures |a| == |b|
  {
    if |a| < |b| {
      FragmentsDiffer(a, b, show);
    } else if |b| < |a| {
      FragmentsDiffer(b, a, show);
    }
  }

  lemma FragmentsDiffer(short: seq<(real, real)>, long: seq<(real, real)>, show: real -> string)
    requires |short| < |long|
    ensures Fragment(short, show) != Fragment(long, show)
  {
    ParamsPrefix(|short|, |long|);
    var head := Signature + Params(|short|);
    var headLong := Signature + Params(|long|);
    var k := |head|;
    BodyStartsWithParen(short, show);
    IndexRight(head, Body(short, show), k);
    IndexLeft(headLong, Body(long, show), k);
    IndexRight(Signature, Params(|long|), k);
  }

  /** The text after the parameter list opens with the closing parenthesis. */
  lemma BodyStartsWithParen(ws: seq<(real, real)>, show: real -> string)
    ensures |Body(ws, show)| > 0 && Body(ws, show)[0] == ')'
  {
    var inner := SamplerLine + Terms(ws, show);
    IndexLeft(BodyOpen, inner, 0);
    IndexLeft(BodyOpen + inner, BodyClose, 0);
  }

  lemma IndexLeft(a: string, b: string, k: nat)
    requires k < |a|
    ensures (a + b)[k] == a[k]
  {
  }

  lemma IndexRight(a: string, b: string, k: nat)
    requires |a| <= k < |a| + |b|
    ensures (a + b)[k] == b[k - |a|]
  {
  }

  /** The header, the struct and the vertex function are the same for every entry list: two shaders differ exactly when their fragments do. */
  lemma ShaderDiffersOnlyInFragment(a: seq<(real, real)>, b: seq<(real, real)>, show: real -> string)
    ensures ShaderString(a, show) == ShaderString(b, show) <==> Fragment(a, show) == Fragment(b, show)
  {
    if ShaderString(a, show) == ShaderString(b, show) {
      Cancel(Prelude(), Fragment(a, show), Fragment(b, show));
    }
  }

  /** With a single entry there is one parameter and one line, without a leading `+`. */
  lemma SingleEntry(w: (real, real), show: real -> string)
    ensures Params(1) == TextureParam(0)
    ensures Terms([w], show) == "\t\t" + Term(0, w, show)
  {
    assert Params(1) == "" + TextureParam(0);
    assert [w][..0] == [];
    assert Terms([w], show) == "" + TermLine(0, w, show);
    assert TermLine(0, w, show) == "\t\t" + "" + Term(0, w, show);
    RightUnit("\t\t");
  }

  /** The first parameter binds `texture0` to texture index 0. */
  lemma SlotZero()
    ensures TextureParam(0) == ",\n\t\t\ttexture2d<float> texture0 [[texture(0)]]"
  {
    assert NatToString(0) == "0";
  }

  /** `t` appears in `s` starting at position `i`. */
  ghost predicate OccursAt(t: string, s: string, i: nat)
  {
    i + |t| <= |s| && s[i..i + |t|] == t
  }

  /** `t` appears somewhere in `s`. */
  ghost predicate Occurs(t: string, s: string)
  {
    exists i: nat :: OccursAt(t, s, i)
  }

  lemma OccursLeft(t: string, s: string, q: string)
    requires Occurs(t, s)
    ensures Occurs(t, s + q)
  {
    var i: nat :| OccursAt(t, s, i);
    assert (s + q)[i..i + |t|] == t;
    assert OccursAt(t, s + q, i);
  }

  lemma OccursRight(t: string, p: string, s: string)
    requires Occurs(t, s)
    ensures Occurs(t, p + s)
  {
    var i: nat :| OccursAt(t, s, i);
    assert (p + s)[|p| + i..|p| + i + |t|] == t;
    assert OccursAt(t, p + s, |p| + i);
  }

  lemma PrefixOccurs(t: string, s: string)
    requires t <= s
    ensures Occurs(t, s)
  {
    assert OccursAt(t, s, 0);
  }

  /** The fragment function is the entry point `gaussianComp_fragment`, whatever the entries. */
  lemma FragmentEntryPoint(ws: seq<(real, real)>, show: real -> string)
    ensures FragmentEntry <= Fragment(ws, show)
  {
    var rest := "ColorInOut texCoord " + "[[stage_in]]";
    assert Signature == FragmentEntry + rest;
    PrefixKept(FragmentEntry, FragmentEntry, rest);
    PrefixKept(FragmentEntry, Signature, Params(|ws|));
    PrefixKept(FragmentEntry, Signature + Params(|ws|), Body(ws, show));
  }

  /**
   * The whole shader defines both functions the library is asked for by name,
   * `gaussianComp_vertex` and `gaussianComp_fragment`, for every entry list.
   */
  lemma ShaderDefinesEntryPoints(ws: seq<(real, real)>, show: real -> string)
    ensures Occurs(VertexEntry, ShaderString(ws, show))
    ensures Occurs(FragmentEntry, ShaderString(ws, show))
  {
    var v := VertexEntry;
    var f := FragmentEntry;
    var front := Header() + "\n\n" + Struct() + "\n\n";
    PrefixOccurs(v, VertexShader());
    OccursRight(v, front, VertexShader());
    OccursLeft(v, front + VertexShader(), "\n\n");
    assert Prelude() == front + VertexShader() + "\n\n";
    OccursLeft(v, Prelude(), Fragment(ws, show));
    FragmentEntryPoint(ws, show);
    PrefixOccurs(f, Fragment(ws, show));
    OccursRight(f, Prelude(), Fragment(ws, show));
  }
}
