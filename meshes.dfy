/**
 * A drawable mesh (include/mesh.h, src/mesh.cpp).
 *
 * The vertex, index and texture lists never change after construction, so
 * they are constant fields of the Mesh class.  The GL buffers that the
 * constructor creates are not modelled.  Drawing is modelled by the trace of
 * shader-uniform and GL calls it issues: Draw is a loop over the textures
 * with three counters, and it is verified against DrawTrace, a definition by
 * position in the texture list.
 */
module Meshes {
  import opened Vectors

  datatype Vertex = Vertex(position: Vec3, normal: Vec3, textureCoordinates: Vec2)

  /** A texture object: its GL name, its kind ("texture_diffuse", ...) and the file it came from. */
  datatype Texture = Texture(id: nat, typeName: string, path: string)

  const DiffuseName: string := "texture_diffuse"
  const SpecularName: string := "texture_specular"
  const UseTextureName: string := "use_texture"

  /** The calls Draw makes on the shader and on the GL context. */
  datatype GlCall =
    | SetBool(name: string, flag: bool)
    | SetInt(name: string, value: int)
    | ActiveTexture(unit: nat)
    | BindTexture(textureId: nat)       // 0 unbinds
    | BindMeshVertexArray
    | DrawTriangles(count: nat)
    | UnbindVertexArray

  // ---------------------------------------------------------------------------
  // Decimal numerals, as std::to_string writes an unsigned number.

  function Digit(d: nat): char
    requires d < 10
  {
    (48 + d) as char
  }

  /** The value of a decimal digit. */
  function DigitValue(c: char): int {
    c as int - '0' as int
  }

  /** The number a string of decimal digits denotes, read from the left. */
  function DecimalValue(s: string): int {
    if s == [] then 0 else DecimalValue(s[..|s| - 1]) * 10 + DigitValue(s[|s| - 1])
  }

  /** The numeral std::to_string writes for n: decimal digits, one of them exactly below 10. */
  function NatToString(n: nat): (r: string)
    ensures |r| >= 1
    ensures forall k :: 0 <= k < |r| ==> '0' <= r[k] <= '9'
    ensures (|r| == 1) == (n < 10)
  {
    if n < 10 then [Digit(n)] else NatToString(n / 10) + [Digit(n % 10)]
  }

  /** The numeral denotes n, and it has no leading zero. */
  lemma {:induction false} NatToStringValue(n: nat)
    ensures DecimalValue(NatToString(n)) == n
    ensures n >= 10 ==> NatToString(n)[0] != '0'
  {
    if n >= 10 {
      var r := NatToString(n);
      NatToStringValue(n / 10);
      assert r[..|r| - 1] == NatToString(n / 10);
      assert r[0] == NatToString(n / 10)[0];
    }
  }

  /** Different numbers have different numerals. */
  lemma {:induction false} NatToStringInjective(a: nat, b: nat)
    requires a != b
    ensures NatToString(a) != NatToString(b)
  {
    if a >= 10 && b >= 10 {
      var sa, sb := NatToString(a), NatToString(b);
      if a / 10 != b / 10 {
        NatToStringInjective(a / 10, b / 10);
        assert sa[..|sa| - 1] == NatToString(a / 10);
        assert sb[..|sb| - 1] == NatToString(b / 10);
      } else {
        assert a % 10 != b % 10;
        assert sa[|sa| - 1] == Digit(a % 10);
        assert sb[|sb| - 1] == Digit(b % 10);
      }
    } else if a < 10 && b < 10 {
      assert NatToString(a)[0] == Digit(a);
      assert NatToString(b)[0] == Digit(b);
    }
  }

  // ---------------------------------------------------------------------------
  // Uniform names.

  /** How many of the first n textures are of the given kind. */
  function CountKind(ts: seq<Texture>, kind: string, n: nat): (c: nat)
    requires n <= |ts|
    ensures c <= n
  {
    if n == 0 then 0
    else CountKind(ts, kind, n - 1) + (if ts[n - 1].typeName == kind then 1 else 0)
  }

  /**
   * The uniform that Draw points at the i-th texture: its kind followed by its
   * 1-based rank among the textures of that kind, for diffuse and specular maps;
   * the bare kind for anything else.
   */
  function UniformName(ts: seq<Texture>, i: nat): (r: string)
    requires i < |ts|
    ensures ts[i].typeName <= r
    ensures |r| > |ts[i].typeName| <==> ts[i].typeName == DiffuseName || ts[i].typeName == SpecularName
  {
    ts[i].typeName + Rank(ts, i)
  }

  /** The numeric suffix of the i-th texture's uniform name: a numeral for diffuse and specular maps only. */
  function Rank(ts: seq<Texture>, i: nat): (r: string)
    requires i < |ts|
    ensures r != [] <==> ts[i].typeName == DiffuseName || ts[i].typeName == SpecularName
    ensures forall k :: 0 <= k < |r| ==> '0' <= r[k] <= '9'
  {
    var kind := ts[i].typeName;
    if kind == DiffuseName || kind == SpecularName then NatToString(CountKind(ts, kind, i) + 1) else ""
  }

  // ---------------------------------------------------------------------------
  // The trace of Mesh::draw.

  /** Selecting texture unit i, pointing the i-th uniform at it and binding the i-th texture there. */
  function BindOne(ts: seq<Texture>, i: nat): (r: seq<GlCall>)
    requires i < |ts|
    ensures |r| == 3 && r[0] == ActiveTexture(i) && r[2] == BindTexture(ts[i].id)
    ensures r[1].SetInt? && r[1].value == i && ts[i].typeName <= r[1].name
  {
    [ActiveTexture(i), SetInt(UniformName(ts, i), i), BindTexture(ts[i].id)]
  }

  /** BindOne for each of the first n textures, in order. */
  function BindCalls(ts: seq<Texture>, n: nat): (r: seq<GlCall>)
    requires n <= |ts|
    ensures |r| == 3 * n
  {
    if n == 0 then [] else BindCalls(ts, n - 1) + BindOne(ts, n - 1)
  }

  /** Unbinding texture units 0 .. n-1, in that order. */
  function UnbindCalls(n: nat): (r: seq<GlCall>)
    ensures |r| == 2 * n
  {
    if n == 0 then [] else UnbindCalls(n - 1) + [ActiveTexture(n - 1), BindTexture(0)]
  }

  /** Everything Draw issues for a mesh with these textures and this many indices. */
  function DrawTrace(ts: seq<Texture>, indexCount: nat): (r: seq<GlCall>)
    ensures |r| == 4 + 5 * |ts|
  {
    [SetBool(UseTextureName, |ts| != 0)]
    + BindCalls(ts, |ts|)
    + [BindMeshVertexArray, DrawTriangles(indexCount), UnbindVertexArray]
    + UnbindCalls(|ts|)
  }

  /**
   * One round of Draw's texture loop, as the loop body performs it, extends
   * the bind calls by the next texture's and keeps the counters in step.
   */
  lemma DrawStep(ts: seq<Texture>, i: nat, diffuseIdx: nat, specularIdx: nat,
                 number: string, diffuseNext: nat, specularNext: nat, before: seq<GlCall>, after: seq<GlCall>)
    requires i < |ts|
    requires before == [SetBool(UseTextureName, |ts| != 0)] + BindCalls(ts, i)
    requires after == before + [ActiveTexture(i)] + [SetInt(ts[i].typeName + number, i), BindTexture(ts[i].id)]
    requires diffuseIdx == CountKind(ts, DiffuseName, i) + 1
    requires specularIdx == CountKind(ts, SpecularName, i) + 1
    requires || (ts[i].typeName == DiffuseName && number == NatToString(diffuseIdx)
                 && diffuseNext == diffuseIdx + 1 && specularNext == specularIdx)
             || (ts[i].typeName != DiffuseName && ts[i].typeName == SpecularName && number == NatToString(specularIdx)
                 && diffuseNext == diffuseIdx && specularNext == specularIdx + 1)
             || (ts[i].typeName != DiffuseName && ts[i].typeName != SpecularName && number == ""
                 && diffuseNext == diffuseIdx && specularNext == specularIdx)
    ensures diffuseNext == CountKind(ts, DiffuseName, i + 1) + 1
    ensures specularNext == CountKind(ts, SpecularName, i + 1) + 1
    ensures after == [SetBool(UseTextureName, |ts| != 0)] + BindCalls(ts, i + 1)
  {
    assert Rank(ts, i) == number;
    assert BindCalls(ts, i + 1) == BindCalls(ts, i) + BindOne(ts, i);
  }

  /** The contents of a mesh, as a value. */
  datatype MeshData = MeshData(vertices: seq<Vertex>, indices: seq<nat>, textures: seq<Texture>)

  class Mesh {
    const vertices: seq<Vertex>
    const indices: seq<nat>
    const textures: seq<Texture>

    function Data(): MeshData {
      MeshData(vertices, indices, textures)
    }

    /** Mesh::Mesh: the three lists are stored as given. */
    constructor (vertices: seq<Vertex>, indices: seq<nat>, textures: seq<Texture>)
      ensures this.vertices == vertices && this.indices == indices && this.textures == textures
    {
      this.vertices := vertices;
      this.indices := indices;
      this.textures := textures;
    }

    /**
     * Mesh::draw, returning the calls it makes and the final value of its
     * texture-unit counter.
     */
    method Draw() returns (calls: seq<GlCall>, textureIdx: nat)
      ensures calls == DrawTrace(textures, |indices|)
      ensures textureIdx == |textures|
    {
      var ts, indexCount := textures, |indices|;
      var diffuseIdx: nat, specularIdx: nat := 1, 1;
      textureIdx := 0;
      if |ts| == 0 {
        calls := [SetBool(UseTextureName, false)];
      } else {
        calls := [SetBool(UseTextureName, true)];
      }
      var i := 0;
      while i < |ts|
        invariant i <= |ts| && textureIdx == i
        invariant diffuseIdx == CountKind(ts, DiffuseName, i) + 1
        invariant specularIdx == CountKind(ts, SpecularName, i) + 1
        invariant calls == [SetBool(UseTextureName, |ts| != 0)] + BindCalls(ts, i)
      {
        ghost var before, diffuseBefore, specularBefore := calls, diffuseIdx, specularIdx;
        calls := calls + [ActiveTexture(textureIdx)];
        var number := "";
        var name := ts[i].typeName;
        if name == DiffuseName {
          number := NatToString(diffuseIdx);
          diffuseIdx := diffuseIdx + 1;
        } else if name == SpecularName {
          number := NatToString(specularIdx);
          specularIdx := specularIdx + 1;
        }
        calls := calls + [SetInt(name + number, textureIdx), BindTexture(ts[i].id)];
        DrawStep(ts, i, diffuseBefore, specularBefore, number, diffuseIdx, specularIdx, before, calls);
        i, textureIdx := i + 1, textureIdx + 1;
      }
      calls := calls + [BindMeshVertexArray, DrawTriangles(indexCount), UnbindVertexArray];
      var prefix := calls;
      var unit := 0;
      while unit < textureIdx
        invariant unit <= textureIdx
        invariant calls == prefix + UnbindCalls(unit)
      {
        calls := calls + [ActiveTexture(unit), BindTexture(0)];
        unit := unit + 1;
      }
    }
  }

  // ---------------------------------------------------------------------------
  // What the trace does.

  /** use_texture is set first, and it is false exactly when there are no textures. */
  lemma UseTextureFlag(ts: seq<Texture>, indexCount: nat)
    ensures DrawTrace(ts, indexCount)[0] == SetBool(UseTextureName, true) <==> |ts| > 0
    ensures DrawTrace(ts, indexCount)[0] == SetBool(UseTextureName, false) <==> |ts| == 0
  {
  }

  /** The calls for texture i within the first n. */
  lemma {:induction false} BindCallsAt(ts: seq<Texture>, n: nat, i: nat)
    requires i < n <= |ts|
    ensures BindCalls(ts, n)[3 * i..3 * i + 3] == BindOne(ts, i)
  {
    if i < n - 1 {
      var prev, last := BindCalls(ts, n - 1), BindOne(ts, n - 1);
      assert BindCalls(ts, n) == prev + last;
      BindCallsAt(ts, n - 1, i);
      SliceOfFirst(prev, last, 3 * i, 3 * i + 3);
    } else {
      BindCallsLast(ts, n);
    }
  }

  /** The last three of the calls for the first n textures are those for texture n - 1. */
  lemma BindCallsLast(ts: seq<Texture>, n: nat)
    requires 0 < n <= |ts|
    ensures BindCalls(ts, n)[3 * (n - 1)..3 * n] == BindOne(ts, n - 1)
  {
    var prev, last := BindCalls(ts, n - 1), BindOne(ts, n - 1);
    assert BindCalls(ts, n) == prev + last;
    assert (prev + last)[|prev|..|prev + last|] == last;
  }

  /** A slice that ends inside the first part of a concatenation is a slice of that part. */
  lemma SliceOfFirst<T>(a: seq<T>, b: seq<T>, lo: nat, hi: nat)
    requires lo <= hi <= |a|
    ensures (a + b)[lo..hi] == a[lo..hi]
  {
  }

  /** The calls for unit j within the first n: select it, bind texture 0. */
  lemma {:induction false} UnbindCallsAt(n: nat, j: nat)
    requires j < n
    ensures UnbindCalls(n)[2 * j..2 * j + 2] == [ActiveTexture(j), BindTexture(0)]
  {
    if j < n - 1 {
      UnbindCallsAt(n - 1, j);
      assert UnbindCalls(n)[..2 * (n - 1)] == UnbindCalls(n - 1);
    }
  }

  /** A slice that falls inside the second of four concatenated parts. */
  lemma SliceOfSecond<T>(p: seq<T>, b: seq<T>, q: seq<T>, r: seq<T>, lo: nat, hi: nat)
    requires lo <= hi <= |b|
    ensures (p + b + q + r)[|p| + lo..|p| + hi] == b[lo..hi]
  {
    assert (p + b + q + r)[|p|..|p| + |b|] == b;
  }

  /** The i-th texture is bound to texture unit i and its uniform is set to i. */
  lemma TextureUnit(ts: seq<Texture>, indexCount: nat, i: nat)
    requires i < |ts|
    ensures DrawTrace(ts, indexCount)[1 + 3 * i..4 + 3 * i]
            == [ActiveTexture(i), SetInt(UniformName(ts, i), i), BindTexture(ts[i].id)]
  {
    BindCallsAt(ts, |ts|, i);
    SliceOfSecond([SetBool(UseTextureName, |ts| != 0)], BindCalls(ts, |ts|),
                  [BindMeshVertexArray, DrawTriangles(indexCount), UnbindVertexArray], UnbindCalls(|ts|),
                  3 * i, 3 * i + 3);
  }

  /** The draw call covers all indices, and afterwards exactly units 0 .. |ts|-1 are unbound, in order. */
  lemma DrawThenUnbind(ts: seq<Texture>, indexCount: nat)
    ensures var t := DrawTrace(ts, indexCount);
      && t[1 + 3 * |ts|..4 + 3 * |ts|] == [BindMeshVertexArray, DrawTriangles(indexCount), UnbindVertexArray]
      && forall j :: 0 <= j < |ts| ==> t[4 + 3 * |ts| + 2 * j..6 + 3 * |ts| + 2 * j] == [ActiveTexture(j), BindTexture(0)]
  {
    var t := DrawTrace(ts, indexCount);
    var base := 4 + 3 * |ts|;
    assert t[base..] == UnbindCalls(|ts|);
    forall j | 0 <= j < |ts|
      ensures t[base + 2 * j..base + 2 * j + 2] == [ActiveTexture(j), BindTexture(0)]
    {
      UnbindCallsAt(|ts|, j);
      assert t[base + 2 * j..base + 2 * j + 2] == t[base..][2 * j..2 * j + 2];
    }
  }

  /** Counting is monotone along prefixes. */
  lemma {:induction false} CountKindPrefix(ts: seq<Texture>, kind: string, i: nat, j: nat)
    requires i <= j <= |ts|
    ensures CountKind(ts, kind, i) <= CountKind(ts, kind, j)
  {
    if i < j {
      CountKindPrefix(ts, kind, i, j - 1);
    }
  }

  /**
   * The k-th diffuse (or specular) texture, counting from 1 and counting only
   * textures of its own kind, gets the uniform name of its kind followed by k.
   */
  lemma RankedName(ts: seq<Texture>, i: nat)
    requires i < |ts| && ts[i].typeName in {DiffuseName, SpecularName}
    ensures UniformName(ts, i) == ts[i].typeName + NatToString(CountKind(ts, ts[i].typeName, i + 1))
  {
  }

  /** A texture of any other kind gets its kind as the uniform name, with no number. */
  lemma UnrankedName(ts: seq<Texture>, i: nat)
    requires i < |ts| && ts[i].typeName !in {DiffuseName, SpecularName}
    ensures UniformName(ts, i) == ts[i].typeName
  {
  }

  /** Two diffuse (or two specular) textures never share a uniform name. */
  lemma DistinctNames(ts: seq<Texture>, i: nat, j: nat)
    requires i < j < |ts|
    requires ts[i].typeName == ts[j].typeName && ts[i].typeName in {DiffuseName, SpecularName}
    ensures UniformName(ts, i) != UniformName(ts, j)
  {
    var kind := ts[i].typeName;
    var p, q := CountKind(ts, kind, i) + 1, CountKind(ts, kind, j) + 1;
    CountKindPrefix(ts, kind, i + 1, j);
    NatToStringInjective(p, q);
    SuffixDecides(kind, Rank(ts, i), Rank(ts, j));
  }

  /** Names with a common prefix are equal only if their suffixes are. */
  lemma SuffixDecides(prefix: string, a: string, b: string)
    requires a != b
    ensures prefix + a != prefix + b
  {
    assert (prefix + a)[|prefix|..] == a;
    assert (prefix + b)[|prefix|..] == b;
  }
}
