/**
 * The static mesh: a Wavefront OBJ reader that collects positions, normals,
 * texture coordinates and per-face-vertex indices line by line, the
 * accumulation of smoothed per-vertex normals, and the mesh object holding
 * the resulting vertex and index arrays.
 */
module StaticMeshes {
  import opened VectorMath
  import opened ObjStreams

  // ---------------------------------------------------------------------
  // One face vertex: `a/b/c`, `a//c` or `a`.

  /** The value an index slot of a face keeps when its field is absent. */
  const Absent: int := -1

  /** The 0-based indices one face vertex contributes (a missing field gives Absent - 1 = -2). */
  datatype FaceVertexIndices = FaceVertexIndices(v: int, uv: int, vn: int)

  /**
   * Reads one face-vertex word: the position index and a delimiter; then,
   * when a digit follows, the texture index, a delimiter and the normal
   * index, and otherwise a second delimiter and the normal index. Each
   * 1-based index is shifted to 0-based.
   */
  function FaceVertex(word: string): FaceVertexIndices {
    AfterPosition(ReadInt(Open(word), Absent))
  }

  /** The rest of a face vertex, once the position index is read. */
  function AfterPosition(position: (Stream, int)): FaceVertexIndices {
    var s := ReadChar(position.0);
    if PeekIsDigit(s) then WithUv(position.1, ReadInt(s, Absent))
    else WithoutUv(position.1, ReadChar(s))
  }

  /** `v/uv/vn`: the normal index follows the texture index and a delimiter. */
  function WithUv(v: int, uv: (Stream, int)): FaceVertexIndices {
    FaceVertexIndices(v - 1, uv.1 - 1, ReadInt(ReadChar(uv.0), Absent).1 - 1)
  }

  /** `v//vn`: the texture index keeps Absent. */
  function WithoutUv(v: int, s: Stream): FaceVertexIndices {
    FaceVertexIndices(v - 1, Absent - 1, ReadInt(s, Absent).1 - 1)
  }

  /** `a/b/c` gives (a-1, b-1, c-1). */
  lemma FaceVertexFull(a: string, b: string, c: string)
    requires a != [] && AllDigits(a) && b != [] && AllDigits(b) && c != [] && AllDigits(c)
    ensures FaceVertex(a + "/" + b + "/" + c) == FaceVertexIndices(Value(a) - 1, Value(b) - 1, Value(c) - 1)
  {
    Regroup(a, b, c, '/', '/');
    FullWord(a + "/" + b + "/" + c, a, b, c);
  }

  /** `a/b/c`, with the word written from the left. */
  lemma FullWord(word: string, a: string, b: string, c: string)
    requires a != [] && AllDigits(a) && b != [] && AllDigits(b) && c != [] && AllDigits(c)
    requires word == a + (['/'] + (b + (['/'] + (c + []))))
    ensures FaceVertex(word) == FaceVertexIndices(Value(a) - 1, Value(b) - 1, Value(c) - 1)
  {
    var tail := ['/'] + (c + []);
    PositionAndUv(a, b, tail);
    SlashThenNormal(Value(a), Value(b), c);
  }

  /** The word a, d, b, e, c read from the left, one piece at a time. */
  lemma Regroup(a: string, b: string, c: string, d: char, e: char)
    ensures a + [d] + b + [e] + c == a + ([d] + (b + ([e] + (c + []))))
  {
  }

  /** The position and the texture index, up to the delimiter that starts tail. */
  lemma PositionAndUv(a: string, b: string, tail: string)
    requires a != [] && AllDigits(a) && b != [] && AllDigits(b) && tail != [] && tail[0] == '/'
    ensures FaceVertex(a + (['/'] + (b + tail))) == WithUv(Value(a), (Open(tail), Value(b)))
  {
    PositionFirst(a, ['/'] + (b + tail));
    SlashThenUv(Value(a), b, tail);
  }

  /** The position index is the leading run of digits. */
  lemma PositionFirst(a: string, rest: string)
    requires a != [] && AllDigits(a) && rest != [] && rest[0] == '/'
    ensures FaceVertex(a + rest) == AfterPosition((Open(rest), Value(a)))
  {
    ReadIntOfDigits(a, rest, Absent);
  }

  /** A delimiter followed by digits: the texture index is read next, up to a non-digit or the end. */
  lemma SlashThenUv(v: int, b: string, tail: string)
    requires b != [] && AllDigits(b) && (tail == [] || tail[0] == '/')
    ensures AfterPosition((Open(['/'] + (b + tail)), v)) == WithUv(v, (Open(tail), Value(b)))
  {
    assert (['/'] + (b + tail))[1..] == b + tail;
    assert (b + tail)[0] == b[0];
    ReadIntOfDigits(b, tail, Absent);
  }

  /** A delimiter and a run of digits at the end of the word give the normal index. */
  lemma SlashThenNormal(v: int, uv: int, c: string)
    requires c != [] && AllDigits(c)
    ensures WithUv(v, (Open(['/'] + (c + [])), uv)) == FaceVertexIndices(v - 1, uv - 1, Value(c) - 1)
  {
    assert (['/'] + (c + []))[1..] == c + [];
    ReadIntOfDigits(c, [], Absent);
  }

  /** `a//c` gives (a-1, -2, c-1): the texture index is absent. */
  lemma FaceVertexWithoutUv(a: string, c: string)
    requires a != [] && AllDigits(a) && c != [] && AllDigits(c)
    ensures FaceVertex(a + "//" + c) == FaceVertexIndices(Value(a) - 1, -2, Value(c) - 1)
  {
    assert a + "//" + c == a + (['/'] + (['/'] + (c + [])));
    WithoutUvWord(a + "//" + c, a, c);
  }

  /** `a//c`, with the word written from the left. */
  lemma WithoutUvWord(word: string, a: string, c: string)
    requires a != [] && AllDigits(a) && c != [] && AllDigits(c)
    requires word == a + (['/'] + (['/'] + (c + [])))
    ensures FaceVertex(word) == FaceVertexIndices(Value(a) - 1, -2, Value(c) - 1)
  {
    PositionFirst(a, ['/'] + (['/'] + (c + [])));
    SlashSlashThenNormal(Value(a), c);
  }

  /** Two delimiters: the second is consumed in place of the texture index, then the normal index is read. */
  lemma SlashSlashThenNormal(v: int, c: string)
    requires c != [] && AllDigits(c)
    ensures AfterPosition((Open(['/'] + (['/'] + (c + []))), v)) == FaceVertexIndices(v - 1, -2, Value(c) - 1)
  {
    var tail := ['/'] + (c + []);
    assert (['/'] + tail)[1..] == tail;
    assert tail[1..] == c + [];
    ReadIntOfDigits(c, [], Absent);
  }

  /** `a/b` gives (a-1, b-1, -2): the stream runs dry before the normal index. */
  lemma FaceVertexWithoutNormal(a: string, b: string)
    requires a != [] && AllDigits(a) && b != [] && AllDigits(b)
    ensures FaceVertex(a + "/" + b) == FaceVertexIndices(Value(a) - 1, Value(b) - 1, -2)
  {
    assert a + "/" + b == a + (['/'] + (b + []));
    WithoutNormalWord(a + "/" + b, a, b);
  }

  /** `a/b`, with the word written from the left. */
  lemma WithoutNormalWord(word: string, a: string, b: string)
    requires a != [] && AllDigits(a) && b != [] && AllDigits(b)
    requires word == a + (['/'] + (b + []))
    ensures FaceVertex(word) == FaceVertexIndices(Value(a) - 1, Value(b) - 1, -2)
  {
    PositionFirst(a, ['/'] + (b + []));
    SlashThenUv(Value(a), b, []);
  }

  /** A bare `a` gives (a-1, -2, -2): every later extraction fails. */
  lemma FaceVertexPositionOnly(a: string)
    requires a != [] && AllDigits(a)
    ensures FaceVertex(a) == FaceVertexIndices(Value(a) - 1, -2, -2)
  {
    assert a == a + "";
    ReadIntOfDigits(a, "", Absent);
  }

  /** A word that starts with no digit and no sign reads position 0, so index -1, and nothing else. */
  lemma FaceVertexNonNumeric(word: string)
    requires word != [] && !IsDigit(word[0]) && word[0] != '-' && word[0] != '+'
    ensures FaceVertex(word) == FaceVertexIndices(-1, -2, -2)
  {
    ReadIntOfNonNumber(word, Absent);
  }

  // ---------------------------------------------------------------------
  // Lines of an OBJ file.

  /** The temporary vectors the reader fills. */
  datatype ObjData = ObjData(
    positions: seq<Vec3>, normals: seq<Vec3>, uvs: seq<Vec2>,
    vIdx: seq<int>, uvIdx: seq<int>, nIdx: seq<int>)

  const EmptyObj := ObjData([], [], [], [], [], [])

  /** Face vertices per face; later vertex words of a line are dropped. */
  const VerticesPerFace: nat := 3

  function Min(a: nat, b: nat): nat {
    if a <= b then a else b
  }

  /** The first word of a line, or the empty string for a blank line. */
  function Head(line: string): string {
    var words := Tokens(line);
    if words == [] then "" else words[0]
  }

  /** The words after the first. */
  function Args(line: string): seq<string> {
    var words := Tokens(line);
    if words == [] then [] else words[1..]
  }

  /** Coordinate k of a vertex line, through readFloat; a missing coordinate reads as 0. */
  function Coord(args: seq<string>, k: nat, readFloat: string -> real): real {
    if k < |args| then readFloat(args[k]) else 0.0
  }

  /** The face vertices a face line keeps: at most three. */
  function FaceVertices(args: seq<string>): (fs: seq<FaceVertexIndices>)
    ensures |fs| == Min(VerticesPerFace, |args|)
    ensures forall k :: 0 <= k < |fs| ==> fs[k] == FaceVertex(args[k])
  {
    seq(Min(VerticesPerFace, |args|), k requires 0 <= k < Min(VerticesPerFace, |args|) => FaceVertex(args[k]))
  }

  function VIndices(fs: seq<FaceVertexIndices>): (r: seq<int>)
    ensures |r| == |fs| && forall k :: 0 <= k < |fs| ==> r[k] == fs[k].v
  {
    seq(|fs|, k requires 0 <= k < |fs| => fs[k].v)
  }

  function UvIndices(fs: seq<FaceVertexIndices>): (r: seq<int>)
    ensures |r| == |fs| && forall k :: 0 <= k < |fs| ==> r[k] == fs[k].uv
  {
    seq(|fs|, k requires 0 <= k < |fs| => fs[k].uv)
  }

  function NIndices(fs: seq<FaceVertexIndices>): (r: seq<int>)
    ensures |r| == |fs| && forall k :: 0 <= k < |fs| ==> r[k] == fs[k].vn
  {
    seq(|fs|, k requires 0 <= k < |fs| => fs[k].vn)
  }

  /** The three index vectors, each extended by its field of the face vertices fs, in order. */
  function AddFace(d: ObjData, fs: seq<FaceVertexIndices>): ObjData {
    d.(vIdx := d.vIdx + VIndices(fs), uvIdx := d.uvIdx + UvIndices(fs), nIdx := d.nIdx + NIndices(fs))
  }

  /** What one line adds to the temporary vectors. */
  function ParseLine(d: ObjData, line: string, readFloat: string -> real): ObjData {
    var head, args := Head(line), Args(line);
    if head == "v" then
      d.(positions := d.positions + [Vec3(Coord(args, 0, readFloat), Coord(args, 1, readFloat), Coord(args, 2, readFloat))])
    else if head == "vn" then
      d.(normals := d.normals + [Vec3(Coord(args, 0, readFloat), Coord(args, 1, readFloat), Coord(args, 2, readFloat))])
    else if head == "vt" then
      d.(uvs := d.uvs + [Vec2(Coord(args, 0, readFloat), Coord(args, 1, readFloat))])
    else if head == "f" then AddFace(d, FaceVertices(args))
    else d
  }

  /** The temporary vectors after reading lines in order. */
  function ParseObj(lines: seq<string>, readFloat: string -> real): ObjData
    decreases |lines|
  {
    if lines == [] then EmptyObj
    else ParseLine(ParseObj(lines[..|lines| - 1], readFloat), lines[|lines| - 1], readFloat)
  }

  /** A line whose first word is not v, vn, vt or f (a comment, a group, a blank line) changes nothing. */
  lemma OtherLinesChangeNothing(d: ObjData, line: string, readFloat: string -> real)
    requires Head(line) !in {"v", "vn", "vt", "f"}
    ensures ParseLine(d, line, readFloat) == d
  {
  }

  /** A v, vn or vt line appends exactly one entry to its own vector and leaves the others alone. */
  lemma VertexLinesAppendOne(d: ObjData, line: string, readFloat: string -> real)
    ensures var r := ParseLine(d, line, readFloat);
            && |r.positions| == |d.positions| + (if Head(line) == "v" then 1 else 0)
            && |r.normals| == |d.normals| + (if Head(line) == "vn" then 1 else 0)
            && |r.uvs| == |d.uvs| + (if Head(line) == "vt" then 1 else 0)
            && r.positions[..|d.positions|] == d.positions
            && r.normals[..|d.normals|] == d.normals
            && r.uvs[..|d.uvs|] == d.uvs
  {
  }

  /**
   * A face line appends min(3, number of vertex words) entries to each of
   * the three index vectors, the k-th read from the k-th vertex word; a
   * fourth or later word is dropped. Other lines append no index.
   */
  lemma FaceLineAppendsAtMostThree(d: ObjData, line: string, readFloat: string -> real)
    ensures var r := ParseLine(d, line, readFloat);
            var n := if Head(line) == "f" then Min(VerticesPerFace, |Args(line)|) else 0;
            && n <= VerticesPerFace
            && |r.vIdx| == |d.vIdx| + n && |r.uvIdx| == |d.uvIdx| + n && |r.nIdx| == |d.nIdx| + n
            && r.vIdx[..|d.vIdx|] == d.vIdx && r.uvIdx[..|d.uvIdx|] == d.uvIdx && r.nIdx[..|d.nIdx|] == d.nIdx
            && (forall k :: 0 <= k < n ==>
                  && r.vIdx[|d.vIdx| + k] == FaceVertex(Args(line)[k]).v
                  && r.uvIdx[|d.uvIdx| + k] == FaceVertex(Args(line)[k]).uv
                  && r.nIdx[|d.nIdx| + k] == FaceVertex(Args(line)[k]).vn)
  {
    if Head(line) == "f" {
      var fs := FaceVertices(Args(line));
      assert (d.vIdx + VIndices(fs))[..|d.vIdx|] == d.vIdx;
      assert (d.uvIdx + UvIndices(fs))[..|d.uvIdx|] == d.uvIdx;
      assert (d.nIdx + NIndices(fs))[..|d.nIdx|] == d.nIdx;
    }
  }

  /** Number of lines whose first word is head. */
  function CountHead(lines: seq<string>, head: string): nat
    decreases |lines|
  {
    if lines == [] then 0
    else CountHead(lines[..|lines| - 1], head) + (if Head(lines[|lines| - 1]) == head then 1 else 0)
  }

  /** Number of face-vertex words kept over all face lines. */
  function KeptFaceVertices(lines: seq<string>): nat
    decreases |lines|
  {
    if lines == [] then 0
    else
      var line := lines[|lines| - 1];
      KeptFaceVertices(lines[..|lines| - 1]) + (if Head(line) == "f" then Min(VerticesPerFace, |Args(line)|) else 0)
  }

  /**
   * The vertex count is the number of v lines (and likewise for vn and vt),
   * and each index vector holds one entry per kept face-vertex word.
   */
  lemma {:induction false} ParseObjCounts(lines: seq<string>, readFloat: string -> real)
    ensures var d := ParseObj(lines, readFloat);
            && |d.positions| == CountHead(lines, "v")
            && |d.normals| == CountHead(lines, "vn")
            && |d.uvs| == CountHead(lines, "vt")
            && |d.vIdx| == |d.uvIdx| == |d.nIdx| == KeptFaceVertices(lines)
    decreases |lines|
  {
    if lines != [] {
      var init := lines[..|lines| - 1];
      ParseObjCounts(init, readFloat);
      VertexLinesAppendOne(ParseObj(init, readFloat), lines[|lines| - 1], readFloat);
      FaceLineAppendsAtMostThree(ParseObj(init, readFloat), lines[|lines| - 1], readFloat);
    }
  }

  /** d's vectors are prefixes of e's. */
  predicate Extends(d: ObjData, e: ObjData) {
    && d.positions <= e.positions && d.normals <= e.normals && d.uvs <= e.uvs
    && d.vIdx <= e.vIdx && d.uvIdx <= e.uvIdx && d.nIdx <= e.nIdx
  }

  /** Reading more lines only appends: what earlier lines produced stays in place and in order. */
  lemma {:induction false} ParseObjOnlyAppends(lines: seq<string>, more: seq<string>, readFloat: string -> real)
    ensures Extends(ParseObj(lines, readFloat), ParseObj(lines + more, readFloat))
    decreases |more|
  {
    if more == [] {
      assert lines + more == lines;
    } else {
      var init := more[..|more| - 1];
      ParseObjOnlyAppends(lines, init, readFloat);
      SplitLast(lines, more);
      OneMoreLineOnlyAppends(lines + init, more[|more| - 1], readFloat);
      ExtendsTransitive(ParseObj(lines, readFloat), ParseObj(lines + init, readFloat), ParseObj(lines + more, readFloat));
    }
  }

  lemma SplitLast<T>(a: seq<T>, b: seq<T>)
    requires b != []
    ensures a + b == (a + b[..|b| - 1]) + [b[|b| - 1]]
  {
    assert b == b[..|b| - 1] + [b[|b| - 1]];
  }

  /** Reading one more line only appends. */
  lemma OneMoreLineOnlyAppends(lines: seq<string>, line: string, readFloat: string -> real)
    ensures Extends(ParseObj(lines, readFloat), ParseObj(lines + [line], readFloat))
  {
    var all := lines + [line];
    assert all[..|all| - 1] == lines;
    ParseLineOnlyAppends(ParseObj(lines, readFloat), line, readFloat);
  }

  /** One line only appends. */
  lemma ParseLineOnlyAppends(d: ObjData, line: string, readFloat: string -> real)
    ensures Extends(d, ParseLine(d, line, readFloat))
  {
    VertexLinesAppendOne(d, line, readFloat);
    FaceLineAppendsAtMostThree(d, line, readFloat);
  }

  lemma ExtendsTransitive(d: ObjData, e: ObjData, f: ObjData)
    requires Extends(d, e) && Extends(e, f)
    ensures Extends(d, f)
  {
  }

  // ---------------------------------------------------------------------
  // Smoothed normals.

  /** The first of the first n normal indices that is negative, or n when there is none. */
  function FirstNegative(nIdx: seq<int>, n: nat): (r: nat)
    requires n <= |nIdx|
    ensures r <= n
    ensures forall i :: 0 <= i < r ==> nIdx[i] >= 0
    ensures r < n ==> nIdx[r] < 0
    decreases n
  {
    if n == 0 then 0
    else
      var r := FirstNegative(nIdx, n - 1);
      if r < n - 1 then r else if nIdx[n - 1] < 0 then n - 1 else n
  }

  /** The first n face vertices may be accumulated: every vertex and normal index is in range. */
  predicate InRange(numVertices: nat, vIdx: seq<int>, nIdx: seq<int>, normals: seq<Vec3>, n: nat) {
    && n <= |vIdx| && n <= |nIdx|
    && forall i :: 0 <= i < n ==> 0 <= vIdx[i] < numVertices && 0 <= nIdx[i] < |normals|
  }

  /**
   * What GetSmoothedNormals needs of its caller: one normal index per vertex
   * index, and every index before the first negative normal index in range.
   */
  predicate Smoothable(numVertices: nat, vIdx: seq<int>, nIdx: seq<int>, normals: seq<Vec3>) {
    |vIdx| <= |nIdx| && InRange(numVertices, vIdx, nIdx, normals, FirstNegative(nIdx, |vIdx|))
  }

  /** The sum of the normals of the first n face vertices that refer to vertex v. */
  function NormalSum(v: int, vIdx: seq<int>, nIdx: seq<int>, normals: seq<Vec3>, n: nat): Vec3
    requires n <= |vIdx| && n <= |nIdx| && forall i :: 0 <= i < n ==> 0 <= nIdx[i] < |normals|
    decreases n
  {
    if n == 0 then Zero3
    else
      var sum := NormalSum(v, vIdx, nIdx, normals, n - 1);
      if vIdx[n - 1] == v then Add(sum, normals[nIdx[n - 1]]) else sum
  }

  /** The slots after the first n face vertices are accumulated. */
  function Sums(numVertices: nat, vIdx: seq<int>, nIdx: seq<int>, normals: seq<Vec3>, n: nat): (r: seq<Vec3>)
    requires n <= |vIdx| && n <= |nIdx| && forall i :: 0 <= i < n ==> 0 <= nIdx[i] < |normals|
    ensures |r| == numVertices
    ensures forall v :: 0 <= v < numVertices ==> r[v] == NormalSum(v, vIdx, nIdx, normals, n)
  {
    seq(numVertices, v requires 0 <= v < numVertices => NormalSum(v, vIdx, nIdx, normals, n))
  }

  /** One face vertex adds its normal into its own slot and nowhere else. */
  lemma SumsStep(numVertices: nat, vIdx: seq<int>, nIdx: seq<int>, normals: seq<Vec3>, n: nat)
    requires InRange(numVertices, vIdx, nIdx, normals, n + 1)
    ensures var before := Sums(numVertices, vIdx, nIdx, normals, n);
            Sums(numVertices, vIdx, nIdx, normals, n + 1)
            == before[vIdx[n] := Add(before[vIdx[n]], normals[nIdx[n]])]
  {
  }

  /**
   * The output of GetSmoothedNormals: numVertices sums, each over the face
   * vertices before the first negative normal index; normalised only when
   * there is no negative normal index at all.
   */
  function SmoothedNormals(numVertices: nat, vIdx: seq<int>, nIdx: seq<int>, normals: seq<Vec3>,
                           normalize: Vec3 -> Vec3): (out: seq<Vec3>)
    requires Smoothable(numVertices, vIdx, nIdx, normals)
    ensures |out| == numVertices
  {
    var stop := FirstNegative(nIdx, |vIdx|);
    var sums := Sums(numVertices, vIdx, nIdx, normals, stop);
    if stop < |vIdx| then sums
    else seq(numVertices, v requires 0 <= v < numVertices => normalize(sums[v]))
  }

  /** A vertex no face vertex refers to gets no contribution. */
  lemma {:induction false} UnreferencedVertexSumsToZero(v: int, vIdx: seq<int>, nIdx: seq<int>, normals: seq<Vec3>, n: nat)
    requires n <= |vIdx| && n <= |nIdx| && forall i :: 0 <= i < n ==> 0 <= nIdx[i] < |normals|
    requires forall i :: 0 <= i < n ==> vIdx[i] != v
    ensures NormalSum(v, vIdx, nIdx, normals, n) == Zero3
    decreases n
  {
    if n > 0 {
      UnreferencedVertexSumsToZero(v, vIdx, nIdx, normals, n - 1);
    }
  }

  /** A vertex referred to by exactly one face vertex i gets exactly that face vertex's normal. */
  lemma {:induction false} SingleReferenceKeepsNormal(v: int, vIdx: seq<int>, nIdx: seq<int>, normals: seq<Vec3>,
                                                      n: nat, i: nat)
    requires n <= |vIdx| && n <= |nIdx| && forall k :: 0 <= k < n ==> 0 <= nIdx[k] < |normals|
    requires i < n && vIdx[i] == v && forall k :: 0 <= k < n && k != i ==> vIdx[k] != v
    ensures NormalSum(v, vIdx, nIdx, normals, n) == normals[nIdx[i]]
    decreases n
  {
    if n - 1 == i {
      UnreferencedVertexSumsToZero(v, vIdx, nIdx, normals, n - 1);
    } else {
      SingleReferenceKeepsNormal(v, vIdx, nIdx, normals, n - 1, i);
    }
  }

  /** The sum over vertex slots 0..m-1 of their accumulated normals. */
  function SlotTotal(m: nat, vIdx: seq<int>, nIdx: seq<int>, normals: seq<Vec3>, n: nat): Vec3
    requires n <= |vIdx| && n <= |nIdx| && forall i :: 0 <= i < n ==> 0 <= nIdx[i] < |normals|
    decreases m
  {
    if m == 0 then Zero3 else Add(SlotTotal(m - 1, vIdx, nIdx, normals, n), NormalSum(m - 1, vIdx, nIdx, normals, n))
  }

  /** The sum of the normals of the first n face vertices, whatever vertex they refer to. */
  function Contributed(nIdx: seq<int>, normals: seq<Vec3>, n: nat): Vec3
    requires n <= |nIdx| && forall i :: 0 <= i < n ==> 0 <= nIdx[i] < |normals|
    decreases n
  {
    if n == 0 then Zero3 else Add(Contributed(nIdx, normals, n - 1), normals[nIdx[n - 1]])
  }

  lemma {:induction false} SlotTotalStep(m: nat, vIdx: seq<int>, nIdx: seq<int>, normals: seq<Vec3>, n: nat)
    requires n < |vIdx| && n < |nIdx| && forall i :: 0 <= i <= n ==> 0 <= nIdx[i] < |normals|
    ensures SlotTotal(m, vIdx, nIdx, normals, n + 1)
            == Add(SlotTotal(m, vIdx, nIdx, normals, n), if 0 <= vIdx[n] < m then normals[nIdx[n]] else Zero3)
    decreases m
  {
    if m > 0 {
      SlotTotalStep(m - 1, vIdx, nIdx, normals, n);
    }
  }

  /**
   * Accumulation loses and duplicates nothing: when every vertex index is a
   * slot, the slots together hold the sum of all the face vertices' normals.
   */
  lemma {:induction false} AccumulationConservesTotal(numVertices: nat, vIdx: seq<int>, nIdx: seq<int>,
                                                      normals: seq<Vec3>, n: nat)
    requires InRange(numVertices, vIdx, nIdx, normals, n)
    ensures SlotTotal(numVertices, vIdx, nIdx, normals, n) == Contributed(nIdx, normals, n)
    decreases n
  {
    if n == 0 {
      ZeroSlots(numVertices, vIdx, nIdx, normals);
    } else {
      AccumulationConservesTotal(numVertices, vIdx, nIdx, normals, n - 1);
      SlotTotalStep(numVertices, vIdx, nIdx, normals, n - 1);
    }
  }

  lemma {:induction false} ZeroSlots(m: nat, vIdx: seq<int>, nIdx: seq<int>, normals: seq<Vec3>)
    ensures SlotTotal(m, vIdx, nIdx, normals, 0) == Zero3
    decreases m
  {
    if m > 0 {
      ZeroSlots(m - 1, vIdx, nIdx, normals);
    }
  }

  // ---------------------------------------------------------------------
  // The mesh object.

  /** A mesh vertex; the default constructor gives all zeros and the colour (1, 0, 0.5). */
  datatype Vertex = Vertex(position: Vec3, normal: Vec3, uv: Vec2, color: Vec3)

  const DefaultColor := Vec3(1.0, 0.0, 0.5)

  const DefaultVertex := Vertex(Zero3, Zero3, Zero2, DefaultColor)

  /** Vertex(position): zero normal and uv, default colour. */
  function VertexAt(position: Vec3): Vertex {
    DefaultVertex.(position := position)
  }

  /** Conversion of an int to unsigned int: two's complement wrap-around modulo 2^32. */
  function ToUInt32(x: int): (r: int)
    ensures 0 <= r < 0x1_0000_0000
    ensures (r - x) % 0x1_0000_0000 == 0
  {
    x % 0x1_0000_0000
  }

  /** In-range indices are kept; -1 and -2 become the two largest unsigned values. */
  lemma ToUInt32Examples(x: int)
    requires 0 <= x < 0x1_0000_0000
    ensures ToUInt32(x) == x
    ensures ToUInt32(-1) == 0xFFFF_FFFF && ToUInt32(-2) == 0xFFFF_FFFE
  {
  }

  /** The vertices LoadObjFile builds: positions in file order with the smoothed normals. */
  function LoadedVertices(positions: seq<Vec3>, smoothed: seq<Vec3>): (r: seq<Vertex>)
    requires |smoothed| == |positions|
    ensures |r| == |positions|
    ensures forall i :: 0 <= i < |r| ==> r[i] == DefaultVertex.(position := positions[i], normal := smoothed[i])
  {
    seq(|positions|, i requires 0 <= i < |positions| => DefaultVertex.(position := positions[i], normal := smoothed[i]))
  }

  class StaticMesh {
    /** m_vertices and m_numVertices. */
    var vertices: array<Vertex>
    var numVertices: int
    /** m_indices and m_numIndices: the position indices, as unsigned ints. */
    var indices: array<int>
    var numIndices: int

    predicate Valid()
      reads this
    {
      vertices.Length == numVertices && indices.Length == numIndices
    }

    /**
     * StaticMesh(filename): LoadObjFile over the file's lines. Vertex i has
     * the position of the i-th v line and the i-th smoothed normal; index i
     * is the position index of the i-th kept face vertex.
     */
    constructor FromObj(lines: seq<string>, readFloat: string -> real, normalize: Vec3 -> Vec3)
      requires var d := ParseObj(lines, readFloat); Smoothable(|d.positions|, d.vIdx, d.nIdx, d.normals)
      ensures Valid() && fresh(vertices) && fresh(indices)
      ensures var d := ParseObj(lines, readFloat);
              && numVertices == |d.positions| && numIndices == |d.vIdx|
              && vertices[..] == LoadedVertices(d.positions, SmoothedNormals(numVertices, d.vIdx, d.nIdx, d.normals, normalize))
              && forall i :: 0 <= i < numIndices ==> indices[i] == ToUInt32(d.vIdx[i])
    {
      var d := ReadObj(lines, readFloat);
      var nv := |d.positions|;
      var ni := |d.vIdx|;
      var smoothed := GetSmoothedNormals(nv, d.vIdx, d.nIdx, d.normals, normalize);

      var vs := FillVertices(d.positions, smoothed);
      var ids := CopyIndices(d.vIdx);
      vertices, numVertices := vs, nv;
      indices, numIndices := ids, ni;
    }

    /** The vertex loop of LoadObjFile: default vertices given the positions and the smoothed normals. */
    static method FillVertices(positions: seq<Vec3>, smoothed: array<Vec3>) returns (vs: array<Vertex>)
      requires smoothed.Length == |positions|
      ensures fresh(vs)
      ensures vs[..] == LoadedVertices(positions, smoothed[..])
    {
      vs := new Vertex[|positions|](_ => DefaultVertex);
      var i := 0;
      while i < |positions|
        invariant 0 <= i <= |positions|
        invariant forall k :: 0 <= k < i ==> vs[k] == DefaultVertex.(position := positions[k], normal := smoothed[k])
        invariant forall k :: i <= k < |positions| ==> vs[k] == DefaultVertex
      {
        vs[i] := vs[i].(position := positions[i]);
        vs[i] := vs[i].(normal := smoothed[i]);
        i := i + 1;
      }
    }

    /** The index loop of LoadObjFile: each position index converted to unsigned int. */
    static method CopyIndices(vIdx: seq<int>) returns (ids: array<int>)
      ensures fresh(ids) && ids.Length == |vIdx|
      ensures forall i :: 0 <= i < |vIdx| ==> ids[i] == ToUInt32(vIdx[i])
    {
      ids := new int[|vIdx|];
      var i := 0;
      while i < |vIdx|
        invariant 0 <= i <= |vIdx|
        invariant forall k :: 0 <= k < i ==> ids[k] == ToUInt32(vIdx[k])
      {
        ids[i] := ToUInt32(vIdx[i]);
        i := i + 1;
      }
    }

    /** StaticMesh(): the fixed triangle with corners 0, 2, 1 in draw order. */
    constructor Triangle()
      ensures Valid() && fresh(vertices) && fresh(indices)
      ensures numVertices == 3 && numIndices == 3
      ensures vertices[..] == [VertexAt(Vec3(-0.6, -0.6, 0.6)), VertexAt(Vec3(0.0, 0.6, 0.6)), VertexAt(Vec3(0.6, -0.6, 0.6))]
      ensures indices[..] == [0, 2, 1]
    {
      var sideHalfLength := 0.6;
      numVertices := 3;
      vertices := new Vertex[3][VertexAt(Vec3(-sideHalfLength, -sideHalfLength, sideHalfLength)),
                                 VertexAt(Vec3(0.0, sideHalfLength, sideHalfLength)),
                                 VertexAt(Vec3(sideHalfLength, -sideHalfLength, sideHalfLength))];
      numIndices := 3;
      indices := new int[3][0, 2, 1];
    }

    /** Every vertex takes the colour; positions, normals and uvs are kept. */
    method SetColor(color: Vec3)
      requires Valid()
      modifies vertices
      ensures forall i :: 0 <= i < vertices.Length ==> vertices[i] == old(vertices[i]).(color := color)
    {
      var i := 0;
      while i < numVertices
        invariant 0 <= i <= numVertices
        invariant forall k :: 0 <= k < i ==> vertices[k] == old(vertices[k]).(color := color)
        invariant forall k :: i <= k < numVertices ==> vertices[k] == old(vertices[k])
      {
        vertices[i] := vertices[i].(color := color);
        i := i + 1;
      }
    }

    /** The getline loop of LoadObjFile: each line is split into words and dispatched on the first. */
    static method ReadObj(lines: seq<string>, readFloat: string -> real) returns (d: ObjData)
      ensures d == ParseObj(lines, readFloat)
    {
      d := EmptyObj;
      var l := 0;
      while l < |lines|
        invariant 0 <= l <= |lines|
        invariant d == ParseObj(lines[..l], readFloat)
      {
        assert lines[..l + 1][..l] == lines[..l];
        var line := lines[l];
        var words := Tokens(line);
        var token := if words == [] then "" else words[0];
        var args := if words == [] then [] else words[1..];

        if token == "v" {
          d := d.(positions := d.positions + [Vec3(Coord(args, 0, readFloat), Coord(args, 1, readFloat), Coord(args, 2, readFloat))]);
        } else if token == "vn" {
          d := d.(normals := d.normals + [Vec3(Coord(args, 0, readFloat), Coord(args, 1, readFloat), Coord(args, 2, readFloat))]);
        } else if token == "vt" {
          d := d.(uvs := d.uvs + [Vec2(Coord(args, 0, readFloat), Coord(args, 1, readFloat))]);
        } else if token == "f" {
          d := ReadFace(d, args);
        }
        l := l + 1;
      }
      assert lines[..l] == lines;
    }

    /** The face-word loop: x counts the words taken, and the loop stops before a fourth. */
    static method ReadFace(d0: ObjData, args: seq<string>) returns (d: ObjData)
      ensures d == AddFace(d0, FaceVertices(args))
    {
      d := d0;
      var x := 0;
      var k := 0;
      while k < |args|
        invariant 0 <= k <= |args| && x == k && x <= VerticesPerFace
        invariant d == AddFace(d0, FaceVertices(args)[..x])
        decreases |args| - k
      {
        if x >= VerticesPerFace {
          break;
        }
        var faceVertex := FaceVertex(args[k]);
        AddFaceStep(d0, FaceVertices(args), x);
        d := d.(vIdx := d.vIdx + [faceVertex.v], uvIdx := d.uvIdx + [faceVertex.uv], nIdx := d.nIdx + [faceVertex.vn]);
        x := x + 1;
        k := k + 1;
      }
      assert FaceVertices(args)[..x] == FaceVertices(args);
    }

    /**
     * GetSmoothedNormals: numVertices zeroed slots; each face vertex adds
     * its normal into its vertex slot; at the first negative normal index it
     * returns at once, otherwise every slot is normalised.
     */
    static method GetSmoothedNormals(numVertices: nat, vertexIndices: seq<int>, normalIndices: seq<int>,
                                     normals: seq<Vec3>, normalize: Vec3 -> Vec3)
      returns (out: array<Vec3>)
      requires Smoothable(numVertices, vertexIndices, normalIndices, normals)
      ensures fresh(out)
      ensures out[..] == SmoothedNormals(numVertices, vertexIndices, normalIndices, normals, normalize)
    {
      ghost var stop := FirstNegative(normalIndices, |vertexIndices|);
      out := new Vec3[numVertices](_ => Zero3);
      assert out[..] == Sums(numVertices, vertexIndices, normalIndices, normals, 0);

      var i := 0;
      while i < |vertexIndices|
        invariant 0 <= i <= stop
        invariant out[..] == Sums(numVertices, vertexIndices, normalIndices, normals, i)
      {
        var currentVertexId := vertexIndices[i];
        var currentNormalId := normalIndices[i];

        if currentNormalId < 0 {
          return;
        }

        SumsStep(numVertices, vertexIndices, normalIndices, normals, i);
        out[currentVertexId] := Add(out[currentVertexId], normals[currentNormalId]);
        i := i + 1;
      }

      ghost var sums := out[..];
      var v := 0;
      while v < numVertices
        invariant 0 <= v <= numVertices
        invariant forall m :: 0 <= m < v ==> out[m] == normalize(sums[m])
        invariant forall m :: v <= m < numVertices ==> out[m] == sums[m]
      {
        out[v] := normalize(out[v]);
        v := v + 1;
      }
    }
  }

  /** Adding the face vertices one at a time. */
  lemma AddFaceStep(d: ObjData, fs: seq<FaceVertexIndices>, x: nat)
    requires x < |fs|
    ensures AddFace(d, fs[..x + 1])
            == AddFace(d, fs[..x]).(vIdx := AddFace(d, fs[..x]).vIdx + [fs[x].v],
                                    uvIdx := AddFace(d, fs[..x]).uvIdx + [fs[x].uv],
                                    nIdx := AddFace(d, fs[..x]).nIdx + [fs[x].vn])
  {
    assert VIndices(fs[..x + 1]) == VIndices(fs[..x]) + [fs[x].v];
    assert UvIndices(fs[..x + 1]) == UvIndices(fs[..x]) + [fs[x].uv];
    assert NIndices(fs[..x + 1]) == NIndices(fs[..x]) + [fs[x].vn];
  }
}
