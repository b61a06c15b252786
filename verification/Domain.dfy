/** The entities of internal/domain. An action's `Data` and a snapshot's
    `Data` appear here decoded; module Codec relates them to their text. */
module Domain {
  import opened Wrappers
  import opened Decimal

  /** What a draw or an erase does, to which cell. */
  datatype DrawData = DrawData(x: Int64, y: Int64, color: string)

  datatype Action = Action(roomID: nat, userID: nat, actionType: string, data: DrawData, version: nat)

  type BoardState = map<string, string>

  datatype Snapshot = Snapshot(roomID: nat, state: BoardState, createdAt: int, version: nat)

  /** The hash field "x:y" of a cell. */
  function FieldKey(x: int, y: int): string {
    FormatInt(x) + ":" + FormatInt(y)
  }

  /** What the replay of an action needs of it: the hash field it writes, the
      colour, the recorded type, and the version the script answered. */
  datatype Edit = Edit(field: string, color: string, actionType: string, version: nat)

  function EditOf(a: Action): Edit {
    Edit(FieldKey(a.data.x, a.data.y), a.data.color, a.actionType, a.version)
  }

  lemma FieldKeyInjective(x: int, y: int, x': int, y': int)
    requires FieldKey(x, y) == FieldKey(x', y')
    ensures x == x' && y == y'
  {
    FormatIntHasNo(x, ':');
    FormatIntHasNo(x', ':');
    SplitUnique(FormatInt(x), FormatInt(y), FormatInt(x'), FormatInt(y'), ':');
    FormatIntInjective(x, x');
    FormatIntInjective(y, y');
  }

  /** The text before a ':' reads as x and the text after it as y. */
  ghost predicate SplitsAt(field: string, i: int, x: Int64, y: Int64) {
    && 0 <= i < |field| && field[i] == ':'
    && ParseInt(field[..i]) == Some(x) && ParseInt(field[i + 1..]) == Some(y)
  }

  /** The field stands for cell (x, y). */
  ghost predicate Names(field: string, x: Int64, y: Int64) {
    exists i :: SplitsAt(field, i, x, y)
  }

  lemma ParsedHasNo(s: string, c: char)
    requires ParseInt(s).Some? && c != '-' && c != '+' && !IsDigit(c)
    ensures c !in s
  {
    var digits := if s[0] == '-' || s[0] == '+' then s[1..] else s;
    forall i | 0 <= i < |s| ensures s[i] != c {
      assert i < |s| - |digits| || s[i] == digits[i - (|s| - |digits|)];
    }
  }

  /** A field stands for one cell at most: its only ':' splits it. */
  lemma NamesOneCell(field: string, x: Int64, y: Int64, x': Int64, y': Int64)
    requires Names(field, x, y) && Names(field, x', y')
    ensures x == x' && y == y'
  {
    hide ParseInt;
    var i :| SplitsAt(field, i, x, y);
    var j :| SplitsAt(field, j, x', y');
    ParsedHasNo(field[..i], ':');
    ParsedHasNo(field[..j], ':');
    assert forall k :: 0 <= k < i ==> field[..i][k] == field[k] != ':';
    assert forall k :: 0 <= k < j ==> field[..j][k] == field[k] != ':';
  }

  /** The field of a cell stands for that cell and no other. */
  lemma FieldNamesCell(x: Int64, y: Int64, a: Int64, b: Int64)
    ensures Names(FieldKey(x, y), a, b) <==> a == x && b == y
  {
    hide ParseInt;
    var field, i := FieldKey(x, y), |FormatInt(x)|;
    assert field[..i] == FormatInt(x) && field[i + 1..] == FormatInt(y);
    ParseIntOfFormat(x);
    ParseIntOfFormat(y);
    assert InInt64(x) && InInt64(y) && field[i] == ':';
    assert SplitsAt(field, i, x, y);
    if Names(field, a, b) {
      NamesOneCell(field, x, y, a, b);
    }
  }
}
