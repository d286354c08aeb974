/**
 The id of a JSON-RPC message too long to parse: its head is walked token by token
 for the top-level "id", and never takes a nested one for it.
 */
module RequestId {
  import opened Basics

  /** A JSON value, an inObject's fields and an array's items in order. */
  datatype Json = Obj(fields: Fields) | Arr(items: Items) | Str(s: string) | Num(text: string) | Word
  datatype Fields = NoField | Field(key: string, value: Json, rest: Fields)
  datatype Items = NoItem | Item(item: Json, more: Items)

  datatype Token = OpenObject | CloseObject | OpenArray | CloseArray | Text(s: string) | Number(text: string) | Literal

  datatype Id = StringId(s: string) | NumberId(text: string)

  const IdDepth := 16

  function Tokens(v: Json): seq<Token> {
    match v
    case Obj(fields) => [OpenObject] + FieldTokens(fields) + [CloseObject]
    case Arr(items) => [OpenArray] + ItemTokens(items) + [CloseArray]
    case Str(s) => [Text(s)]
    case Num(text) => [Number(text)]
    case Word => [Literal]
  }

  function FieldTokens(fields: Fields): seq<Token> {
    match fields
    case NoField => []
    case Field(key, value, rest) => [Text(key)] + Tokens(value) + FieldTokens(rest)
  }

  function ItemTokens(items: Items): seq<Token> {
    match items
    case NoItem => []
    case Item(item, more) => Tokens(item) + ItemTokens(more)
  }

  /** How deep a value nests. */
  function Depth(v: Json): nat {
    match v
    case Obj(fields) => 1 + FieldDepth(fields)
    case Arr(items) => 1 + ItemDepth(items)
    case _ => 0
  }

  function FieldDepth(fields: Fields): nat {
    match fields
    case NoField => 0
    case Field(_, value, rest) => Max(Depth(value), FieldDepth(rest))
  }

  function ItemDepth(items: Items): nat {
    match items
    case NoItem => 0
    case Item(item, more) => Max(Depth(item), ItemDepth(more))
  }

  // ---------- What the id is ----------

  /** A value as an id: a string or a number, or nothing. */
  function AsId(v: Json): Option<Id> {
    match v
    case Str(s) => Some(StringId(s))
    case Num(text) => Some(NumberId(text))
    case _ => None
  }

  predicate HasId(fields: Fields) {
    fields.Field? && (fields.key == "id" || HasId(fields.rest))
  }

  /** The value of the first top-level "id". */
  function Lookup(fields: Fields): Option<Id> {
    match fields
    case NoField => None
    case Field(key, value, rest) => if key == "id" then AsId(value) else Lookup(rest)
  }

  /** How deep the message nests before its id, or throughout when it has none. */
  function DepthBeforeId(fields: Fields): nat {
    match fields
    case NoField => 1
    case Field(key, value, rest) =>
      if key == "id" then 1 else Max(1 + Depth(value), DepthBeforeId(rest))
  }

  /** The tokens before the id's value, counted in the fields; all of them when there is no id. */
  function BeforeId(fields: Fields): nat {
    match fields
    case NoField => 0
    case Field(key, value, rest) => if key == "id" then 1 else 1 + |Tokens(value)| + BeforeId(rest)
  }

  // ---------- The walk ----------

  /** The rest of the walk, `depth` deep; `atKey` when a top-level key comes next. */
  function Walk(ts: seq<Token>, depth: int, atKey: bool, inObject: bool): Option<Id> {
    if ts == [] then None
    else
      var rest := ts[1..];
      match ts[0]
      case OpenObject =>
        var inObject' := if depth + 1 == 1 then true else inObject;
        if depth + 1 > IdDepth then None else Walk(rest, depth + 1, depth + 1 == 1 && inObject', inObject')
      case OpenArray =>
        var inObject' := if depth + 1 == 1 then false else inObject;
        if depth + 1 > IdDepth then None else Walk(rest, depth + 1, depth + 1 == 1 && inObject', inObject')
      case CloseObject => Walk(rest, depth - 1, depth - 1 == 1 && inObject, inObject)
      case CloseArray => Walk(rest, depth - 1, depth - 1 == 1 && inObject, inObject)
      case _ =>
        if depth != 1 || !inObject then Walk(rest, depth, atKey, inObject)
        else if !atKey then Walk(rest, depth, true, inObject)
        else if ts[0] != Text("id") then Walk(rest, depth, false, inObject)
        else if rest == [] then None
        else TokenId(rest[0])
  }

  function TokenId(t: Token): Option<Id> {
    match t
    case Text(s) => Some(StringId(s))
    case Number(text) => Some(NumberId(text))
    case _ => None
  }

  /** The id that the tokens `ts` of a message's head give. */
  method RequestID(ts: seq<Token>) returns (id: Option<Id>)
    ensures id == Walk(ts, 0, false, false)
  {
    var depth, atKey, inObject := 0, false, false;
    var i := 0;
    while i < |ts|
      invariant 0 <= i <= |ts|
      invariant Walk(ts[i..], depth, atKey, inObject) == Walk(ts, 0, false, false)
    {
      var token := ts[i];
      assert ts[i..][0] == token && ts[i..][1..] == ts[i + 1..];
      i := i + 1;
      if token == OpenObject || token == OpenArray {
        depth := depth + 1;
        if depth == 1 {
          inObject := token == OpenObject;
        }
        if depth > IdDepth {
          return None;
        }
        atKey := depth == 1 && inObject;
        continue;
      }
      if token == CloseObject || token == CloseArray {
        depth := depth - 1;
        atKey := depth == 1 && inObject;
        continue;
      }
      if depth != 1 || !inObject {
        continue;
      }
      if !atKey {
        atKey := true;
        continue;
      }
      atKey := false;
      if token != Text("id") {
        continue;
      }
      if i == |ts| {
        return None;
      }
      return TokenId(ts[i]);
    }
    return None;
  }

  // ---------- The walk skips what is nested ----------

  /** Away from the top level it does not matter whether a key would come next. */
  lemma {:induction false} KeyMattersAtTop(ts: seq<Token>, depth: int, a: bool, b: bool, inObject: bool)
    requires depth != 1
    ensures Walk(ts, depth, a, inObject) == Walk(ts, depth, b, inObject)
  {
    if ts != [] && (ts[0].Text? || ts[0].Number? || ts[0].Literal?) {
      KeyMattersAtTop(ts[1..], depth, a, b, inObject);
    }
  }

  /** Within an object or array nested below the top level, a value is passed over whole. */
  lemma {:induction false} SkipValue(v: Json, more: seq<Token>, depth: int, atKey: bool, inObject: bool)
    requires depth >= 2
    ensures Walk(Tokens(v) + more, depth, atKey, inObject)
            == if Depth(v) > 0 && depth + Depth(v) > IdDepth then None else Walk(more, depth, atKey, inObject)
    decreases v
  {
    match v
    case Obj(fields) =>
      var inner := [CloseObject] + more;
      Nested(OpenObject, FieldTokens(fields), CloseObject, more);
      SkipFields(fields, inner, depth + 1, false, inObject);
      KeyMattersAtTop(more, depth, atKey, false, inObject);
    case Arr(items) =>
      var inner := [CloseArray] + more;
      Nested(OpenArray, ItemTokens(items), CloseArray, more);
      SkipItems(items, inner, depth + 1, false, inObject);
      KeyMattersAtTop(more, depth, atKey, false, inObject);
    case _ => assert (Tokens(v) + more)[1..] == more;
  }

  lemma Nested(open: Token, inside: seq<Token>, close: Token, more: seq<Token>)
    ensures [open] + inside + [close] + more == [open] + (inside + ([close] + more))
    ensures ([open] + (inside + ([close] + more)))[1..] == inside + ([close] + more)
    ensures ([close] + more)[1..] == more
  {
  }

  lemma {:induction false} SkipFields(fields: Fields, more: seq<Token>, depth: int, atKey: bool, inObject: bool)
    requires depth >= 2
    ensures Walk(FieldTokens(fields) + more, depth, atKey, inObject)
            == if FieldDepth(fields) > 0 && depth + FieldDepth(fields) > IdDepth then None else Walk(more, depth, atKey, inObject)
    decreases fields
  {
    match fields
    case NoField => assert FieldTokens(fields) + more == more;
    case Field(key, value, rest) =>
      var after := FieldTokens(rest) + more;
      assert FieldTokens(fields) + more == [Text(key)] + (Tokens(value) + after);
      SkipValue(value, after, depth, atKey, inObject);
      SkipFields(rest, more, depth, atKey, inObject);
  }

  lemma {:induction false} SkipItems(items: Items, more: seq<Token>, depth: int, atKey: bool, inObject: bool)
    requires depth >= 2
    ensures Walk(ItemTokens(items) + more, depth, atKey, inObject)
            == if ItemDepth(items) > 0 && depth + ItemDepth(items) > IdDepth then None else Walk(more, depth, atKey, inObject)
    decreases items
  {
    match items
    case NoItem => assert ItemTokens(items) + more == more;
    case Item(item, rest) =>
      var after := ItemTokens(rest) + more;
      assert ItemTokens(items) + more == Tokens(item) + after;
      SkipValue(item, after, depth, atKey, inObject);
      SkipItems(rest, more, depth, atKey, inObject);
  }

  /** A top-level value that is not the id's is passed over, and a key comes next. */
  lemma SkipTopValue(v: Json, more: seq<Token>)
    ensures Walk(Tokens(v) + more, 1, false, true)
            == if 1 + Depth(v) > IdDepth then None else Walk(more, 1, true, true)
  {
    match v
    case Obj(fields) =>
      var inner := [CloseObject] + more;
      assert Tokens(v) + more == [OpenObject] + (FieldTokens(fields) + inner);
      SkipFields(fields, inner, 2, false, true);
      assert inner[1..] == more;
    case Arr(items) =>
      var inner := [CloseArray] + more;
      assert Tokens(v) + more == [OpenArray] + (ItemTokens(items) + inner);
      SkipItems(items, inner, 2, false, true);
      assert inner[1..] == more;
    case _ => assert (Tokens(v) + more)[1..] == more;
  }

  // ---------- What the walk finds ----------

  /** The walk at an "id" key. */
  lemma WalkId(value: Json, rest: Fields, more: seq<Token>)
    ensures var ts := FieldTokens(Field("id", value, rest));
            && |ts| > 1
            && Walk(ts[..1], 1, true, true) == None
            && Walk(ts[..2] + more, 1, true, true) == TokenId(ts[1])
            && TokenId(ts[1]) == AsId(value)
  {
    var ts := FieldTokens(Field("id", value, rest));
    FirstToken(value);
    assert ts[..1] == [Text("id")] && [Text("id")][1..] == [];
    assert ts[1] == Tokens(value)[0];
    assert ts[..2] + more == [Text("id")] + ([ts[1]] + more);
    assert ([Text("id")] + ([ts[1]] + more))[1..] == [ts[1]] + more;
  }

  /** From the top level's first key, with anything after the id's value. */
  lemma {:induction false} WalkFields(fields: Fields, more: seq<Token>)
    requires HasId(fields)
    ensures BeforeId(fields) < |FieldTokens(fields)|
    ensures Walk(FieldTokens(fields)[..BeforeId(fields)], 1, true, true) == None
    ensures Walk(FieldTokens(fields)[..BeforeId(fields) + 1] + more, 1, true, true)
            == if DepthBeforeId(fields) > IdDepth then None else TokenId(FieldTokens(fields)[BeforeId(fields)])
    ensures TokenId(FieldTokens(fields)[BeforeId(fields)]) == Lookup(fields)
  {
    var Field(key, value, rest) := fields;
    var ts := FieldTokens(fields);
    if key == "id" {
      WalkId(value, rest, more);
    } else {
      hide Walk, Tokens;
      WalkFields(rest, more);
      var k := BeforeId(rest);
      var head := [Text(key)] + Tokens(value);
      assert ts == head + FieldTokens(rest);
      assert ts[..BeforeId(fields)] == head + FieldTokens(rest)[..k];
      assert ts[..BeforeId(fields) + 1] + more == head + (FieldTokens(rest)[..k + 1] + more);
      SkipField(key, value, FieldTokens(rest)[..k]);
      SkipField(key, value, FieldTokens(rest)[..k + 1] + more);
    }
  }

  lemma FirstToken(v: Json)
    ensures Tokens(v) != [] && TokenId(Tokens(v)[0]) == AsId(v)
  {
  }

  /** A field that is not the id's is passed over. */
  lemma SkipField(key: string, value: Json, more: seq<Token>)
    requires key != "id"
    ensures Walk([Text(key)] + Tokens(value) + more, 1, true, true)
            == if 1 + Depth(value) > IdDepth then None else Walk(more, 1, true, true)
  {
    var rest := Tokens(value) + more;
    assert [Text(key)] + Tokens(value) + more == [Text(key)] + rest;
    assert ([Text(key)] + rest)[1..] == rest;
    SkipTopValue(value, more);
  }

  lemma {:induction false} WalkNoId(fields: Fields)
    requires !HasId(fields)
    ensures Walk(FieldTokens(fields) + [CloseObject], 1, true, true) == None
  {
    match fields
    case NoField => assert [CloseObject][1..] == [];
    case Field(key, value, rest) =>
      var after := FieldTokens(rest) + [CloseObject];
      assert FieldTokens(fields) + [CloseObject] == [Text(key)] + Tokens(value) + after;
      SkipField(key, value, after);
      WalkNoId(rest);
  }

  /** What a walk finds, it finds whatever follows. */
  lemma {:induction false} WalkExtends(ts: seq<Token>, more: seq<Token>, depth: int, atKey: bool, inObject: bool)
    requires Walk(ts, depth, atKey, inObject).Some?
    ensures Walk(ts + more, depth, atKey, inObject) == Walk(ts, depth, atKey, inObject)
  {
    var rest := ts[1..];
    assert (ts + more)[0] == ts[0] && (ts + more)[1..] == rest + more;
    match ts[0]
    case OpenObject => WalkExtends(rest, more, depth + 1, depth + 1 == 1, if depth + 1 == 1 then true else inObject);
    case OpenArray => WalkExtends(rest, more, depth + 1, false, if depth + 1 == 1 then false else inObject);
    case CloseObject => WalkExtends(rest, more, depth - 1, depth - 1 == 1 && inObject, inObject);
    case CloseArray => WalkExtends(rest, more, depth - 1, depth - 1 == 1 && inObject, inObject);
    case _ =>
      if depth != 1 || !inObject {
        WalkExtends(rest, more, depth, atKey, inObject);
      } else if !atKey {
        WalkExtends(rest, more, depth, true, inObject);
      } else if ts[0] != Text("id") {
        WalkExtends(rest, more, depth, false, inObject);
      }
  }

  /** The place of the id's value among a message's tokens, past the end when it has none. */
  function IdPlace(fields: Fields): nat {
    if HasId(fields) then 1 + BeforeId(fields) else |Tokens(Obj(fields))|
  }

  /** A message up to its id's value. */
  function Preamble(fields: Fields): (ts: seq<Token>)
    ensures |ts| == IdPlace(fields) <= |Tokens(Obj(fields))| && ts == Tokens(Obj(fields))[..IdPlace(fields)]
  {
    if HasId(fields) then
      WalkFields(fields, []);
      [OpenObject] + FieldTokens(fields)[..BeforeId(fields)]
    else Tokens(Obj(fields))
  }

  lemma PreambleHoldsNothing(fields: Fields)
    ensures Walk(Preamble(fields), 0, false, false) == None
  {
    if HasId(fields) {
      WalkFields(fields, []);
      assert Preamble(fields)[1..] == FieldTokens(fields)[..BeforeId(fields)];
    } else {
      WalkNoId(fields);
      assert Preamble(fields) == [OpenObject] + (FieldTokens(fields) + [CloseObject]);
      assert Preamble(fields)[1..] == FieldTokens(fields) + [CloseObject];
    }
  }

  /** The tokens of a message whose id's value is not yet reached hold nothing. */
  lemma NothingBeforeId(fields: Fields, k: nat)
    requires k <= IdPlace(fields)
    ensures k <= |Tokens(Obj(fields))| && Walk(Tokens(Obj(fields))[..k], 0, false, false) == None
  {
    var whole := Preamble(fields);
    PreambleHoldsNothing(fields);
    hide Tokens, Preamble, IdPlace;
    assert whole[..k] + whole[k..] == whole;
    if Walk(whole[..k], 0, false, false).Some? {
      WalkExtends(whole[..k], whole[k..], 0, false, false);
    }
    assert Tokens(Obj(fields))[..k] == whole[..k];
  }

  /**
   For every JSON object and every whole-token prefix of it, the id found is the first
   top-level "id" when that is a string or number the prefix reaches before nesting
   passes the bound, and nothing otherwise.
   */
  lemma RequestIdIsLookup(fields: Fields, k: nat)
    requires k <= |Tokens(Obj(fields))|
    ensures Walk(Tokens(Obj(fields))[..k], 0, false, false)
            == if k > IdPlace(fields) && DepthBeforeId(fields) <= IdDepth then Lookup(fields) else None
  {
    if k <= IdPlace(fields) {
      NothingBeforeId(fields, k);
    } else {
      hide Walk, Tokens;
      PrefixAfterId(fields, k);
      var after := Tokens(Obj(fields))[IdPlace(fields) + 1..k];
      WalkFields(fields, after);
      OpensWalk(FieldTokens(fields)[..BeforeId(fields) + 1] + after);
    }
  }

  /** A prefix that reaches past the id's value. */
  lemma PrefixAfterId(fields: Fields, k: nat)
    requires IdPlace(fields) < k <= |Tokens(Obj(fields))|
    ensures HasId(fields) && BeforeId(fields) < |FieldTokens(fields)|
    ensures Tokens(Obj(fields))[..k]
         == [OpenObject] + (FieldTokens(fields)[..BeforeId(fields) + 1] + Tokens(Obj(fields))[IdPlace(fields) + 1..k])
  {
    assert HasId(fields);
    WalkFields(fields, []);
    hide Walk, FieldTokens, HasId, BeforeId;
    Around(FieldTokens(fields), BeforeId(fields) + 1, k);
  }

  lemma Around(ts: seq<Token>, i: nat, k: nat)
    requires i <= |ts| && i < k <= |ts| + 2
    ensures var all := [OpenObject] + ts + [CloseObject]; all[..k] == [OpenObject] + (ts[..i] + all[i + 1..k])
  {
    var all := [OpenObject] + ts + [CloseObject];
    assert all[..i + 1] == [OpenObject] + ts[..i];
    FrontTwice(all, i + 1, k);
  }

  lemma FrontTwice(ts: seq<Token>, i: nat, k: nat)
    requires i <= k <= |ts|
    ensures ts[..k] == ts[..i] + ts[i..k]
  {
  }

  lemma OpensWalk(rest: seq<Token>)
    ensures Walk([OpenObject] + rest, 0, false, false) == Walk(rest, 1, true, true)
  {
    assert ([OpenObject] + rest)[1..] == rest;
  }

  /** Whatever its last number's text, a walk gives the same, unless it gives that number. */
  lemma {:induction false} LastNumber(ts: seq<Token>, t: string, u: string, depth: int, atKey: bool, inObject: bool)
    ensures var a := Walk(ts + [Number(t)], depth, atKey, inObject); var b := Walk(ts + [Number(u)], depth, atKey, inObject);
            a == b || (a == Some(NumberId(t)) && b == Some(NumberId(u)))
  {
    if ts == [] {
      assert [Number(t)][1..] == [] && [Number(u)][1..] == [];
      assert ts + [Number(t)] == [Number(t)] && ts + [Number(u)] == [Number(u)];
    } else {
      var rest := ts[1..];
      assert (ts + [Number(t)])[1..] == rest + [Number(t)] && (ts + [Number(u)])[1..] == rest + [Number(u)];
      match ts[0]
      case OpenObject => LastNumber(rest, t, u, depth + 1, depth + 1 == 1, if depth + 1 == 1 then true else inObject);
      case OpenArray => LastNumber(rest, t, u, depth + 1, false, if depth + 1 == 1 then false else inObject);
      case CloseObject => LastNumber(rest, t, u, depth - 1, depth - 1 == 1 && inObject, inObject);
      case CloseArray => LastNumber(rest, t, u, depth - 1, depth - 1 == 1 && inObject, inObject);
      case _ =>
        if depth != 1 || !inObject {
          LastNumber(rest, t, u, depth, atKey, inObject);
        } else if !atKey {
          LastNumber(rest, t, u, depth, true, inObject);
        } else if ts[0] != Text("id") {
          LastNumber(rest, t, u, depth, false, inObject);
        } else {
          NextToken(rest, t);
          NextToken(rest, u);
        }
    }
  }

  lemma NextToken(ts: seq<Token>, t: string)
    ensures ts + [Number(t)] != [] && TokenId((ts + [Number(t)])[0]) == if ts == [] then Some(NumberId(t)) else TokenId(ts[0])
  {
    assert ts == [] ==> ts + [Number(t)] == [Number(t)];
  }

  /**
   A head may end inside a number, which the decoder then gives short. The id found is
   the one above exactly unless the number cut is the id's own, reached in bounds: then
   it is the digits the head holds.
   */
  lemma CutNumber(fields: Fields, k: nat, short: string)
    requires k < |Tokens(Obj(fields))| && Tokens(Obj(fields))[k].Number? && short < Tokens(Obj(fields))[k].text
    ensures var ts := Tokens(Obj(fields)); var whole := Walk(ts[..k + 1], 0, false, false);
            var cut := Walk(ts[..k] + [Number(short)], 0, false, false);
            && (cut == whole <==> !(k == IdPlace(fields) && DepthBeforeId(fields) <= IdDepth))
            && (cut != whole ==> cut == Some(NumberId(short)) && Lookup(fields) == Some(NumberId(ts[k].text)))
  {
    RequestIdIsLookup(fields, k + 1);
    if k == IdPlace(fields) {
      CutAtId(fields, short);
    } else {
      CutElsewhere(fields, k, short);
    }
    hide Walk, Tokens;
  }

  /** A last number the walk does not give may be any other. */
  lemma UnusedNumber(ts: seq<Token>, t: string, u: string)
    requires Walk(ts + [Number(u)], 0, false, false) == Walk(ts, 0, false, false)
    ensures Walk(ts + [Number(t)], 0, false, false) == Walk(ts + [Number(u)], 0, false, false)
  {
    LastNumber(ts, t, u, 0, false, false);
    if Walk(ts, 0, false, false).Some? {
      WalkExtends(ts, [Number(t)], 0, false, false);
    }
    hide Walk;
  }

  lemma {:induction false} CutElsewhere(fields: Fields, k: nat, short: string)
    requires k < |Tokens(Obj(fields))| && Tokens(Obj(fields))[k].Number? && k != IdPlace(fields)
    ensures var ts := Tokens(Obj(fields));
            Walk(ts[..k] + [Number(short)], 0, false, false) == Walk(ts[..k + 1], 0, false, false)
  {
    hide Walk, Tokens, IdPlace;
    var ts := Tokens(Obj(fields));
    RequestIdIsLookup(fields, k);
    RequestIdIsLookup(fields, k + 1);
    assert ts[..k + 1] == ts[..k] + [Number(ts[k].text)];
    UnusedNumber(ts[..k], short, ts[k].text);
  }

  lemma {:induction false} CutAtId(fields: Fields, short: string)
    requires IdPlace(fields) < |Tokens(Obj(fields))|
    ensures Walk(Tokens(Obj(fields))[..IdPlace(fields)] + [Number(short)], 0, false, false)
            == if DepthBeforeId(fields) <= IdDepth then Some(NumberId(short)) else None
    ensures Tokens(Obj(fields))[IdPlace(fields)].Number? ==>
              Lookup(fields) == Some(NumberId(Tokens(Obj(fields))[IdPlace(fields)].text))
  {
    assert HasId(fields);
    WalkFields(fields, []);
    CutWalk(fields, short);
    var rest := FieldTokens(fields)[..BeforeId(fields)] + [Number(short)];
    assert Tokens(Obj(fields))[..IdPlace(fields)] + [Number(short)] == [OpenObject] + rest;
    assert ([OpenObject] + rest)[1..] == rest;
  }

  /** The walk to a cut number in the id's place. */
  lemma {:induction false} CutWalk(fields: Fields, short: string)
    requires HasId(fields)
    ensures BeforeId(fields) <= |FieldTokens(fields)|
    ensures Walk(FieldTokens(fields)[..BeforeId(fields)] + [Number(short)], 1, true, true)
            == if DepthBeforeId(fields) > IdDepth then None else Some(NumberId(short))
  {
    var Field(key, value, rest) := fields;
    var ts := FieldTokens(fields);
    if key == "id" {
      assert ts[..1] + [Number(short)] == [Text("id")] + [Number(short)];
      assert ([Text("id")] + [Number(short)])[1..] == [Number(short)];
    } else {
      CutWalk(rest, short);
      var k := BeforeId(rest);
      assert ts[..BeforeId(fields)] + [Number(short)] == [Text(key)] + Tokens(value) + (FieldTokens(rest)[..k] + [Number(short)]);
      SkipField(key, value, FieldTokens(rest)[..k] + [Number(short)]);
    }
  }

  /**
   Such a message: parameters, of whatever length puts the head's end inside the number,
   and after them the id 12, which is answered as 1.
   */
  lemma CutIdAnswered(params: Json)
    requires Depth(params) < IdDepth
    ensures var fields := Field("params", params, Field("id", Num("12"), NoField)); var ts := Tokens(Obj(fields));
            var k := 2 + |Tokens(params)| + 1;
            && k < |ts| && ts[k] == Number("12") && Lookup(fields) == Some(NumberId("12"))
            && Walk(ts[..k] + [Number("1")], 0, false, false) == Some(NumberId("1"))
  {
    IdAfter(params, "12");
    hide Walk, Tokens, IdPlace, DepthBeforeId;
    CutAtId(Field("params", params, Field("id", Num("12"), NoField)), "1");
  }

  lemma IdAfter(params: Json, text: string)
    requires Depth(params) < IdDepth
    ensures var fields := Field("params", params, Field("id", Num(text), NoField));
            && IdPlace(fields) == 2 + |Tokens(params)| + 1 < |Tokens(Obj(fields))|
            && Tokens(Obj(fields))[IdPlace(fields)] == Number(text)
            && DepthBeforeId(fields) <= IdDepth && Lookup(fields) == Some(NumberId(text))
  {
    var id := Field("id", Num(text), NoField);
    var fields := Field("params", params, id);
    assert BeforeId(id) == 1 && DepthBeforeId(id) == 1 && HasId(fields);
    PlaceInside(fields);
    hide Walk;
    assert FieldTokens(id) == [Text("id"), Number(text)];
    var head := [Text("params")] + Tokens(params);
    assert FieldTokens(fields) == head + FieldTokens(id);
    assert FieldTokens(fields)[|head| + 1] == FieldTokens(id)[1];
  }

  lemma PlaceInside(fields: Fields)
    requires HasId(fields)
    ensures IdPlace(fields) < |Tokens(Obj(fields))|
    ensures 0 < IdPlace(fields) <= |FieldTokens(fields)|
    ensures Tokens(Obj(fields))[IdPlace(fields)] == FieldTokens(fields)[IdPlace(fields) - 1]
  {
    WalkFields(fields, []);
  }
}
