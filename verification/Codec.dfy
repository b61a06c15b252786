/** The JSON texts kept in an action's and a snapshot's `Data`. */
module Codec {
  import opened Wrappers
  import opened Decimal
  import opened Domain
  import opened Json
  import JsonRoundTrip

  datatype CodecError = EmptyData | BadJson

  const NO_DATA := DrawData(0, 0, "")

  // ----- drawing data ------------------------------------------------------------

  /** The struct's fields in order; an empty colour is left out. */
  function DrawMembers(d: DrawData): seq<Member> {
    [Member("x", Number(FormatInt(d.x))), Member("y", Number(FormatInt(d.y)))]
    + if d.color == "" then [] else [Member("color", String(d.color))]
  }

  function Lower(s: string): string {
    if s == "" then ""
    else [if 'A' <= s[0] <= 'Z' then (s[0] as int + 32) as char else s[0]] + Lower(s[1..])
  }

  function IntOf(j: Json, unset: Int64): Option<Int64> {
    match j
    case Null => Some(unset)
    case Number(t) => ParseInt(t)
    case _ => None
  }

  /** One member of the text: names match whatever their case, unknown ones are
      skipped, null sets nothing, and a value of the wrong type is an error. */
  function Assign(d: DrawData, m: Member): Option<DrawData> {
    var name := Lower(m.name);
    if name == "x" then
      match IntOf(m.json, d.x) case Some(x) => Some(d.(x := x)) case None => None
    else if name == "y" then
      match IntOf(m.json, d.y) case Some(y) => Some(d.(y := y)) case None => None
    else if name == "color" then
      match m.json case String(c) => Some(d.(color := c)) case Null => Some(d) case _ => None
    else Some(d)
  }

  function AssignAll(d: DrawData, ms: seq<Member>): Option<DrawData>
    decreases |ms|
  {
    if ms == [] then Some(d)
    else
      match Assign(d, ms[0])
      case None => None
      case Some(d') => AssignAll(d', ms[1..])
  }

  function DecodeDraw(text: string): Option<DrawData> {
    match Read(text)
    case Some(Null) => Some(NO_DATA)
    case Some(Object(ms)) => AssignAll(NO_DATA, ms)
    case _ => None
  }

  function EncodeDraw(d: DrawData): string {
    WriteObject(DrawMembers(d))
  }

  lemma Names()
    ensures Lower("x") == "x" && Lower("y") == "y" && Lower("color") == "color"
  {
    assert Lower("r") == "r";
    assert "or"[1..] == "r" && "lor"[1..] == "or" && "olor"[1..] == "lor" && "color"[1..] == "olor";
  }

  lemma AssignsBack(d: DrawData)
    ensures AssignAll(NO_DATA, DrawMembers(d)) == Some(d)
  {
    hide Lower, FormatInt, ParseInt;
    Names();
    ParseIntOfFormat(d.x);
    ParseIntOfFormat(d.y);
    var ms := DrawMembers(d);
    var d1, d2 := NO_DATA.(x := d.x), NO_DATA.(x := d.x, y := d.y);
    assert Assign(NO_DATA, ms[0]) == Some(d1) && Assign(d1, ms[1]) == Some(d2);
    assert ms[1..][0] == ms[1] && ms[1..][1..] == ms[2..];
    if d.color != "" {
      assert ms[2..] == [Member("color", String(d.color))];
      assert Assign(d2, ms[2..][0]) == Some(d);
      assert ms[2..][1..] == [];
    } else {
      assert ms[2..] == [];
    }
    assert AssignAll(d2, ms[2..]) == Some(d);
    assert AssignAll(d1, ms[1..]) == Some(d);
  }

  /** For all coordinates and all colours the decoder inverts the encoder. */
  lemma DrawRoundTrip(d: DrawData)
    ensures DecodeDraw(EncodeDraw(d)) == Some(d)
    ensures EncodeDraw(d) != "" && EncodeDraw(d) != "null"
  {
    hide Read, AssignAll, WriteMembers;
    var ms := DrawMembers(d);
    forall m | m in ms ensures Scalar(m.json) {
    }
    JsonRoundTrip.ObjectReads(ms);
    AssignsBack(d);
    assert EncodeDraw(d)[0] == '{';
  }

  /** The text itself: x, y, and the colour unless it is empty. */
  lemma DrawText(d: DrawData)
    ensures var x, y, color :=
        "\"x\":" + FormatInt(d.x), "\"y\":" + FormatInt(d.y), "\"color\":" + ("\"" + (EscapeAll(d.color) + "\""));
      EncodeDraw(d) == if d.color == "" then "{" + x + "," + y + "}" else "{" + x + "," + y + "," + color + "}"
  {
    hide FormatInt, EscapeAll, WriteObject, WriteMember;
    MemberTexts(d);
    var ms := DrawMembers(d);
    if d.color == "" {
      TwoMembers(ms[0], ms[1]);
      assert ms == [ms[0], ms[1]];
    } else {
      ThreeMembers(ms[0], ms[1], ms[2]);
      assert ms == [ms[0], ms[1], ms[2]];
    }
  }

  lemma MemberTexts(d: DrawData)
    ensures WriteMember(Member("x", Number(FormatInt(d.x)))) == "\"x\":" + FormatInt(d.x)
    ensures WriteMember(Member("y", Number(FormatInt(d.y)))) == "\"y\":" + FormatInt(d.y)
    ensures WriteMember(Member("color", String(d.color))) == "\"color\":" + ("\"" + (EscapeAll(d.color) + "\""))
  {
    NameTexts();
    hide FormatInt, EscapeAll;
    assert "\"x\"" + (":" + FormatInt(d.x)) == "\"x\":" + FormatInt(d.x);
    assert "\"y\"" + (":" + FormatInt(d.y)) == "\"y\":" + FormatInt(d.y);
    assert "\"color\"" + (":" + Quote(d.color)) == "\"color\":" + Quote(d.color);
  }

  lemma TwoMembers(m: Member, n: Member)
    ensures WriteObject([m, n]) == "{" + WriteMember(m) + "," + WriteMember(n) + "}"
  {
    hide WriteMember;
    assert [m, n][1..] == [n];
    assert WriteMembers([n]) == WriteMember(n) + "}";
    Joined("{", WriteMember(m), WriteMember(n) + "}");
  }

  lemma ThreeMembers(m: Member, n: Member, o: Member)
    ensures WriteObject([m, n, o]) == "{" + WriteMember(m) + "," + WriteMember(n) + "," + WriteMember(o) + "}"
  {
    hide WriteMember;
    assert [m, n, o][1..] == [n, o] && [n, o][1..] == [o];
    assert WriteMembers([o]) == WriteMember(o) + "}";
    assert WriteMembers([n, o]) == WriteMember(n) + ("," + (WriteMember(o) + "}"));
    Joined("{", WriteMember(m), WriteMembers([n, o]));
    Joined("{" + WriteMember(m) + ",", WriteMember(n), WriteMember(o) + "}");
    JsonRoundTrip.Assoc("{" + WriteMember(m) + "," + WriteMember(n) + ",", WriteMember(o), "}");
  }

  lemma Joined(a: string, b: string, c: string)
    ensures a + (b + ("," + c)) == a + b + "," + c
  {
  }

  lemma NameTexts()
    ensures Quote("x") == "\"x\"" && Quote("y") == "\"y\"" && Quote("color") == "\"color\""
  {
  }

  class ActionRow {
    const actionType: string
    var data: string

    constructor (actionType: string)
      ensures this.actionType == actionType && data == ""
    {
      this.actionType := actionType;
      data := "";
    }

    method SetData(d: DrawData)
      modifies this`data
      ensures data == EncodeDraw(d) && ParseData() == Ok(d)
    {
      data := EncodeDraw(d);
      DrawRoundTrip(d);
    }

    /** Missing data is an error only for the types that need some. */
    function ParseData(): (r: Result<DrawData, CodecError>)
      reads this
      ensures r == Err(EmptyData) <==> data in {"", "null"} && actionType in {"draw", "erase"}
      ensures data in {"", "null"} && actionType !in {"draw", "erase"} ==> r == Ok(DrawData(0, 0, ""))
    {
      if data == "" || data == "null" then
        if actionType == "draw" || actionType == "erase" then Err(EmptyData) else Ok(NO_DATA)
      else
        match DecodeDraw(data)
        case None => Err(BadJson)
        case Some(d) => Ok(d)
    }
  }

  // ----- board states ------------------------------------------------------------

  /** Each key of the board once, in some order. */
  ghost predicate Lists(keys: seq<string>, board: BoardState) {
    && (forall k :: k in keys <==> k in board)
    && forall i, j :: 0 <= i < j < |keys| ==> keys[i] != keys[j]
  }

  function BoardMembers(board: BoardState, keys: seq<string>): (ms: seq<Member>)
    requires forall k :: k in keys ==> k in board
    ensures |ms| == |keys| && forall i :: 0 <= i < |keys| ==> ms[i] == Member(keys[i], String(board[keys[i]]))
  {
    if keys == [] then [] else [Member(keys[0], String(board[keys[0]]))] + BoardMembers(board, keys[1..])
  }

  function EntriesOf(ms: seq<Member>): Option<BoardState> {
    if ms == [] then Some(map[])
    else
      var m := ms[|ms| - 1];
      match EntriesOf(ms[..|ms| - 1])
      case None => None
      case Some(board) =>
        match m.json
        case String(s) => Some(board[m.name := s])
        case Null => Some(board[m.name := ""])
        case _ => None
  }

  /** A nil map and an empty one have the same text. */
  function EncodeState(board: BoardState, keys: seq<string>): string
    requires forall k :: k in keys ==> k in board
  {
    WriteObject(BoardMembers(board, keys))
  }

  /** An empty text and a null both stand for the empty board. */
  function DecodeState(text: string): Result<BoardState, CodecError> {
    if text == "" then Ok(map[])
    else
      match Read(text)
      case Some(Null) => Ok(map[])
      case Some(Object(ms)) =>
        (match EntriesOf(ms)
         case Some(board) => Ok(board)
         case None => Err(BadJson))
      case _ => Err(BadJson)
  }

  lemma MembersSnoc(board: BoardState, keys: seq<string>)
    requires keys != [] && forall k :: k in keys ==> k in board
    ensures BoardMembers(board, keys)[..|keys| - 1] == BoardMembers(board, keys[..|keys| - 1])
  {
    hide BoardMembers;
  }

  lemma {:induction false} EntriesBack(board: BoardState, keys: seq<string>)
    requires forall k :: k in keys ==> k in board
    ensures var r := EntriesOf(BoardMembers(board, keys));
      r.Some? && forall k :: (k in r.value <==> k in keys) && (k in keys ==> r.value[k] == board[k])
  {
    hide BoardMembers;
    if keys != [] {
      MembersSnoc(board, keys);
      EntriesBack(board, keys[..|keys| - 1]);
      assert forall k :: k in keys <==> k in keys[..|keys| - 1] || k == keys[|keys| - 1];
    }
  }

  lemma StateMembersRead(board: BoardState, keys: seq<string>)
    requires Lists(keys, board)
    ensures Read(EncodeState(board, keys)) == Some(Object(BoardMembers(board, keys)))
  {
    hide Read, WriteObject;
    forall m | m in BoardMembers(board, keys) ensures Scalar(m.json) {
    }
    JsonRoundTrip.ObjectReads(BoardMembers(board, keys));
  }

  /** For every board, and whatever the order of the keys, the board comes back. */
  lemma StateRoundTrip(board: BoardState, keys: seq<string>)
    requires Lists(keys, board)
    ensures DecodeState(EncodeState(board, keys)) == Ok(board)
  {
    hide Read, EntriesOf, WriteMembers, BoardMembers;
    StateMembersRead(board, keys);
    EntriesBack(board, keys);
    assert EntriesOf(BoardMembers(board, keys)).value == board;
    assert EncodeState(board, keys)[0] == '{';
  }

  class SnapshotRow {
    var data: string

    constructor ()
      ensures data == ""
    {
      data := "";
    }

    /** `None` is a nil board. */
    method SetState(state: Option<BoardState>)
      modifies this`data
      ensures ParseState() == Ok(if state.Some? then state.value else map[])
      ensures state == None || state == Some(map[]) ==> data == "{}"
      ensures state.Some? ==> exists keys :: Lists(keys, state.value) && data == EncodeState(state.value, keys)
    {
      if state == None || state.value.Keys == {} {
        data := "{}";
        StateRoundTrip(map[], []);
        assert EncodeState(map[], []) == "{}";
        assert state.Some? ==> Lists([], state.value);
        return;
      }
      var board, keys, todo := state.value, [], state.value.Keys;
      while todo != {}
        invariant todo <= board.Keys
        invariant forall k :: k in keys <==> k in board && k !in todo
        invariant forall i, j :: 0 <= i < j < |keys| ==> keys[i] != keys[j]
        decreases |todo|
      {
        var k :| k in todo;
        keys := keys + [k];
        todo := todo - {k};
      }
      data := EncodeState(board, keys);
      StateRoundTrip(board, keys);
    }

    function ParseState(): (r: Result<BoardState, CodecError>)
      reads this
      ensures data == "" ==> r == Ok(map[])
    {
      DecodeState(data)
    }
  }
}
