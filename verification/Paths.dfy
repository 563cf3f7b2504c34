/**
 Actor paths and the shard grammar written on top of them (`src/path.rs`, `src/shard.rs`).
 */
module Paths {
  import opened Wrappers

  /** Segments, root first; the root is the empty sequence. */
  type Path = seq<string>

  const ROOT: Path := []

  predicate IsValidName(name: string) {
    name != "" && '/' !in name
  }

  predicate AllValid(path: Path) {
    forall i :: 0 <= i < |path| ==> IsValidName(path[i])
  }

  method Child(path: Path, name: string) returns (child: Path)
    ensures Parent(child) == Some(path) && Name(child) == Some(name)
    ensures StartsWith(child, path) && !StartsWith(path, child)
  {
    var segments: Path := [];
    for i := 0 to |path|
      invariant segments == path[..i]
    {
      segments := segments + [path[i]];
    }
    child := segments + [name];
    assert child[..|path|] == path;
  }

  function Parent(path: Path): Option<Path> {
    if path == [] then None else Some(path[..|path| - 1])
  }

  function Name(path: Path): Option<string> {
    if path == [] then None else Some(path[|path| - 1])
  }

  /** Segment by segment, as the source compares them. */
  predicate StartsWith(path: Path, prefix: Path) {
    |prefix| <= |path| && forall i :: 0 <= i < |prefix| ==> prefix[i] == path[i]
  }

  /** `prefix` is reached from `path` by going to the parent any number of times. */
  predicate IsAncestorOrSelf(path: Path, prefix: Path)
    decreases |path|
  {
    path == prefix || (Parent(path).Some? && IsAncestorOrSelf(Parent(path).value, prefix))
  }

  /** `starts_with` is exactly the ancestor-or-self relation. */
  lemma {:induction false} StartsWithIsAncestry(path: Path, prefix: Path)
    ensures StartsWith(path, prefix) <==> IsAncestorOrSelf(path, prefix)
    ensures StartsWith(path, prefix) <==> prefix <= path
    decreases |path|
  {
    if path != [] {
      StartsWithIsAncestry(path[..|path| - 1], prefix);
      assert |path| == |prefix| && StartsWith(path, prefix) ==> path == prefix;
    }
  }

  // ---- The display form and back --------------------------------------------------------

  function Display(path: Path): string {
    if path == [] then "/" else Spelled(path)
  }

  function Spelled(path: Path): string {
    if path == [] then "" else "/" + path[0] + Spelled(path[1..])
  }

  lemma {:induction false} SpelledSnoc(path: Path, name: string)
    ensures Spelled(path + [name]) == Spelled(path) + "/" + name
  {
    if path == [] {
      assert path + [name] == [name] && [name][1..] == [];
    } else {
      assert (path + [name])[1..] == path[1..] + [name];
      SpelledSnoc(path[1..], name);
    }
  }

  /** The formatting loop. */
  method Fmt(path: Path) returns (text: string)
    ensures text == Display(path)
  {
    if path == [] {
      return "/";
    }
    text := "";
    for i := 0 to |path|
      invariant text == Spelled(path[..i])
    {
      assert path[..i + 1] == path[..i] + [path[i]];
      SpelledSnoc(path[..i], path[i]);
      text := text + "/" + path[i];
    }
    assert path[..|path|] == path;
  }

  /** The pieces between separators; never empty, and no piece holds a separator. */
  function Split(text: string): (pieces: seq<string>)
    ensures pieces != []
    ensures forall i :: 0 <= i < |pieces| ==> '/' !in pieces[i]
  {
    if text == "" then [""]
    else
      var rest := Split(text[1..]);
      if text[0] == '/' then [""] + rest else [[text[0]] + rest[0]] + rest[1..]
  }

  datatype InvalidPath = InvalidPath(text: string)

  function Parse(text: string): Result<Path, InvalidPath> {
    if text == "" || text[0] != '/' then Err(InvalidPath(text))
    else if text[1..] == "" then Ok(ROOT)
    else
      var segments := Split(text[1..]);
      if exists i :: 0 <= i < |segments| && segments[i] == "" then Err(InvalidPath(text)) else Ok(segments)
  }

  lemma HeadJoins(c: char, first: string, rest: string, text: string)
    requires "/" + first + rest == "/" + text
    ensures "/" + ([c] + first) + rest == "/" + ([c] + text)
  {
    assert ("/" + first + rest)[1..] == first + rest && ("/" + text)[1..] == text;
    assert "/" + ([c] + first) + rest == "/" + ([c] + (first + rest));
  }

  lemma {:induction false} SplitJoins(text: string)
    ensures Spelled(Split(text)) == "/" + text
  {
    if text == "" {
      assert Split(text) == [""] && [""][1..] == [];
      assert "/" + "" + "" == "/" + text;
    } else {
      var rest := Split(text[1..]);
      SplitJoins(text[1..]);
      if text[0] == '/' {
        assert ([""] + rest)[1..] == rest;
        assert "/" + "" + ("/" + text[1..]) == "/" + text;
      } else {
        assert ([[text[0]] + rest[0]] + rest[1..])[1..] == rest[1..];
        HeadJoins(text[0], rest[0], Spelled(rest[1..]), text[1..]);
        assert [text[0]] + text[1..] == text;
      }
    }
  }

  lemma {:induction false} SplitOfPiece(piece: string)
    requires '/' !in piece
    ensures Split(piece) == [piece]
  {
    if piece != "" {
      SplitOfPiece(piece[1..]);
      assert [piece[0]] + piece[1..] == piece;
    }
  }

  lemma {:induction false} SplitConcat(piece: string, text: string)
    requires '/' !in piece
    ensures Split(piece + "/" + text) == [piece] + Split(text)
  {
    if piece == "" {
      assert piece + "/" + text == "/" + text;
      assert ("/" + text)[1..] == text;
    } else {
      assert (piece + "/" + text)[1..] == piece[1..] + "/" + text;
      SplitConcat(piece[1..], text);
      assert [piece[0]] + piece[1..] == piece;
    }
  }

  /** Splitting a spelled path without its leading separator gives its segments back. */
  lemma {:induction false} SplitOfSpelled(path: Path)
    requires path != [] && forall i :: 0 <= i < |path| ==> '/' !in path[i]
    ensures Split(Spelled(path)[1..]) == path
    decreases |path|
  {
    if |path| == 1 {
      assert path[1..] == [];
      assert Spelled(path) == "/" + path[0] + "";
      assert Spelled(path)[1..] == path[0];
      SplitOfPiece(path[0]);
    } else {
      var tail := path[1..];
      SplitOfSpelled(tail);
      var rest := Spelled(tail)[1..];
      assert Spelled(tail) == "/" + rest;
      assert Spelled(path)[1..] == path[0] + "/" + rest;
      SplitConcat(path[0], rest);
      assert [path[0]] + tail == path;
    }
  }

  ghost predicate EmptyFrom(pieces: seq<string>, k: nat) {
    exists i :: k <= i < |pieces| && pieces[i] == ""
  }

  ghost predicate Doubled(text: string) {
    exists i :: 0 <= i < |text| - 1 && text[i] == '/' && text[i + 1] == '/'
  }

  lemma DoubledTail(text: string)
    requires text != ""
    ensures Doubled(text) <==> (|text| > 1 && text[0] == '/' && text[1] == '/') || Doubled(text[1..])
  {
    if Doubled(text[1..]) {
      var i :| 0 <= i < |text[1..]| - 1 && text[1..][i] == '/' && text[1..][i + 1] == '/';
      assert text[i + 1] == '/' && text[i + 1 + 1] == '/';
    }
    if Doubled(text) {
      var i :| 0 <= i < |text| - 1 && text[i] == '/' && text[i + 1] == '/';
      assert i > 0 ==> text[1..][i - 1] == '/' && text[1..][i - 1 + 1] == '/';
    }
  }

  lemma EmptyTail(piece: string, pieces: seq<string>)
    ensures EmptyFrom([piece] + pieces, 1) <==> EmptyFrom(pieces, 0)
  {
    if EmptyFrom(pieces, 0) {
      var i :| 0 <= i < |pieces| && pieces[i] == "";
      assert ([piece] + pieces)[i + 1] == "";
    }
  }

  /** A later piece is empty exactly when the text ends in a separator or has two in a row. */
  lemma {:induction false} LaterPieceEmpty(text: string)
    ensures EmptyFrom(Split(text), 1) <==> (text != "" && text[|text| - 1] == '/') || Doubled(text)
  {
    if text != "" {
      var tail := text[1..];
      var rest := Split(tail);
      LaterPieceEmpty(tail);
      DoubledTail(text);
      assert rest == [rest[0]] + rest[1..];
      EmptyTail(rest[0], rest[1..]);
      if text[0] == '/' {
        EmptyTail("", rest);
        assert EmptyFrom(rest, 0) <==> rest[0] == "" || EmptyFrom(rest, 1);
      } else {
        EmptyTail([text[0]] + rest[0], rest[1..]);
      }
    }
  }

  /** The texts that stand for a path: absolute, and the separators only ever between two characters. */
  lemma ExactlyTheseTextsParse(text: string)
    ensures Parse(text).Ok? <==>
            text == "/" || (|text| > 1 && text[0] == '/' && text[|text| - 1] != '/' && !Doubled(text))
  {
    if |text| > 1 && text[0] == '/' {
      var tail := text[1..];
      LaterPieceEmpty(tail);
      DoubledTail(text);
      assert EmptyFrom(Split(tail), 0) <==> Split(tail)[0] == "" || EmptyFrom(Split(tail), 1);
    }
  }

  /** An accepted text comes back from its path unchanged, and stands for valid names only. */
  lemma ParseThenDisplay(text: string)
    requires Parse(text).Ok?
    ensures Display(Parse(text).value) == text && AllValid(Parse(text).value)
  {
    if text[1..] == "" {
      assert text == [text[0]] + text[1..];
    } else {
      SplitJoins(text[1..]);
      assert "/" + text[1..] == text;
    }
  }

  /** A path survives its display form exactly when every segment is a valid name. */
  lemma DisplayThenParse(path: Path)
    ensures Parse(Display(path)) == Ok(path) <==> AllValid(path)
  {
    if Parse(Display(path)) == Ok(path) {
      ParseThenDisplay(Display(path));
    }
    if AllValid(path) && path != [] {
      SplitOfSpelled(path);
      assert Spelled(path)[0] == '/' && |Spelled(path)| > 1;
    }
  }

  // ---- Shard addresses ------------------------------------------------------------------

  datatype PlacedShard = PlacedShard(typeName: string, shardId: string)

  function RegionOf(typeName: string): Path {
    ["system", "shard", typeName]
  }

  function ShardRoot(shard: PlacedShard): Path {
    RegionOf(shard.typeName) + [shard.shardId]
  }

  function AddressOf(typeName: string, shardId: string, entityId: string): Path {
    RegionOf(typeName) + [shardId] + [entityId]
  }

  function ShardRootOf(path: Path): Option<PlacedShard> {
    if |path| >= 4 && path[0] == "system" && path[1] == "shard" then Some(PlacedShard(path[2], path[3])) else None
  }

  /** The one reader of the grammar finds a shard exactly on the paths below that shard's root. */
  lemma ShardRootOfIsThePrefix(path: Path, shard: PlacedShard)
    ensures ShardRootOf(path) == Some(shard) <==> StartsWith(path, ShardRoot(shard))
  {
    var root := ShardRoot(shard);
    assert root == ["system", "shard", shard.typeName, shard.shardId];
    if StartsWith(path, root) {
      assert root[0] == path[0] && root[1] == path[1] && root[2] == path[2] && root[3] == path[3];
    }
  }

  /** An address, and anything an entity creates below it, answers with the address's own ids. */
  lemma AddressReadsBack(typeName: string, shardId: string, entityId: string, below: Path)
    ensures ShardRootOf(AddressOf(typeName, shardId, entityId) + below) == Some(PlacedShard(typeName, shardId))
    ensures StartsWith(AddressOf(typeName, shardId, entityId) + below, RegionOf(typeName))
  {
    var path := AddressOf(typeName, shardId, entityId) + below;
    assert path[0] == "system" && path[1] == "shard" && path[2] == typeName && path[3] == shardId;
  }

  /** The address in full, as it is logged: the two fixed names, then type, shard and entity in that order. */
  lemma AddressInFull(typeName: string, shardId: string, entityId: string)
    ensures Display(AddressOf(typeName, shardId, entityId)) ==
            "/system/shard/" + typeName + "/" + shardId + "/" + entityId
  {
    var shard := ["system", "shard"];
    SystemShard();
    SpelledSnoc(shard, typeName);
    SpelledSnoc(shard + [typeName], shardId);
    SpelledSnoc(shard + [typeName] + [shardId], entityId);
    assert AddressOf(typeName, shardId, entityId) == shard + [typeName] + [shardId] + [entityId];
    assert "/system/shard" + "/" == "/system/shard/";
  }

  lemma SystemShard()
    ensures Spelled(["system", "shard"]) == "/system/shard"
  {
    assert ["system", "shard"][1..] == ["shard"] && ["shard"][1..] == [];
    assert Spelled(["shard"]) == "/" + "shard" + "";
    assert "/" + "system" + "/shard" == "/system/shard";
  }

  /** One entity is one address: no two entities, shards or types share one. */
  lemma OneEntityIsOneAddress(t1: string, s1: string, e1: string, t2: string, s2: string, e2: string)
    requires AddressOf(t1, s1, e1) == AddressOf(t2, s2, e2)
    ensures t1 == t2 && s1 == s2 && e1 == e2
  {
    assert AddressOf(t1, s1, e1) == ["system", "shard", t1, s1, e1];
    assert AddressOf(t2, s2, e2) == ["system", "shard", t2, s2, e2];
    assert ["system", "shard", t1, s1, e1][2] == ["system", "shard", t2, s2, e2][2];
    assert ["system", "shard", t1, s1, e1][3] == ["system", "shard", t2, s2, e2][3];
    assert ["system", "shard", t1, s1, e1][4] == ["system", "shard", t2, s2, e2][4];
  }

  /** Below the shard's root, by its entity. */
  lemma AnAddressIsUnderItsShard(typeName: string, shardId: string, entityId: string)
    ensures Parent(AddressOf(typeName, shardId, entityId)) == Some(ShardRoot(PlacedShard(typeName, shardId)))
    ensures Name(AddressOf(typeName, shardId, entityId)) == Some(entityId)
  {
    var path := AddressOf(typeName, shardId, entityId);
    assert path == ["system", "shard", typeName, shardId, entityId];
    assert path[..4] == ShardRoot(PlacedShard(typeName, shardId));
  }
}
