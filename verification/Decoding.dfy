/** What the decoders make of any JSON value: which they refuse, and which member decides
    each field of a drawing and each cell of a board. */
module Decoding {
  import opened Wrappers
  import opened Decimal
  import opened Domain
  import opened Json
  import opened Codec

  /** The same name, but for the case of its letters. */
  ghost predicate Spells(name: string, key: string) {
    |name| == |key| && forall i :: 0 <= i < |key| ==>
      name[i] == key[i] || ('A' <= name[i] <= 'Z' && name[i] as int + 32 == key[i] as int)
  }

  lemma {:induction false} LowerSpells(name: string, key: string)
    requires forall c :: c in key ==> 'a' <= c <= 'z'
    ensures Lower(name) == key <==> Spells(name, key)
  {
    if name != "" && key != "" {
      assert forall c :: c in key[1..] ==> c in key;
      assert key[0] in key;
      LowerSpells(name[1..], key[1..]);
      assert key == [key[0]] + key[1..];
      assert Lower(name) == key <==> Lower(name)[0] == key[0] && Lower(name)[1..] == key[1..];
      assert Lower(name)[1..] == Lower(name[1..]);
      HeadAndTail(name, key);
    } else {
      LowerLength(name);
    }
  }

  lemma {:induction false} LowerLength(s: string)
    ensures |Lower(s)| == |s|
  {
    if s != "" {
      LowerLength(s[1..]);
    }
  }

  lemma HeadAndTail(name: string, key: string)
    requires name != "" && key != ""
    ensures Spells(name, key) <==>
      && (name[0] == key[0] || ('A' <= name[0] <= 'Z' && name[0] as int + 32 == key[0] as int))
      && Spells(name[1..], key[1..])
  {
    assert forall i :: 0 <= i < |name| - 1 ==> name[1..][i] == name[i + 1];
    assert forall i :: 0 <= i < |key| - 1 ==> key[1..][i] == key[i + 1];
    assert forall i :: 0 < i < |name| ==> name[i] == name[1..][i - 1];
    assert forall i :: 0 < i < |key| ==> key[i] == key[1..][i - 1];
  }

  /** A coordinate is null or an integer of 64 bits, a colour null or a string. */
  ghost predicate Acceptable(m: Member) {
    && (Spells(m.name, "x") || Spells(m.name, "y") ==> m.json.Null? || (m.json.Number? && ParseInt(m.json.text).Some?))
    && (Spells(m.name, "color") ==> m.json.Null? || m.json.String?)
  }

  ghost predicate Sets(m: Member, key: string) {
    Spells(m.name, key) && !m.json.Null?
  }

  /** Member `i` is the last that sets this field. */
  ghost predicate LastSets(ms: seq<Member>, i: int, key: string) {
    0 <= i < |ms| && Sets(ms[i], key) && forall j :: i < j < |ms| ==> !Sets(ms[j], key)
  }

  ghost predicate NoneSets(ms: seq<Member>, key: string) {
    forall j :: 0 <= j < |ms| ==> !Sets(ms[j], key)
  }

  /** Coordinate `v` is what the last member that sets it says, or `unset`. */
  ghost predicate IntRead(ms: seq<Member>, key: string, unset: Int64, v: Int64) {
    || (NoneSets(ms, key) && v == unset)
    || exists i :: LastSets(ms, i, key) && ms[i].json.Number? && ParseInt(ms[i].json.text) == Some(v)
  }

  ghost predicate TextRead(ms: seq<Member>, key: string, unset: string, v: string) {
    || (NoneSets(ms, key) && v == unset)
    || exists i :: LastSets(ms, i, key) && ms[i].json == String(v)
  }

  lemma KeysSpell(m: Member)
    ensures Lower(m.name) == "x" <==> Spells(m.name, "x")
    ensures Lower(m.name) == "y" <==> Spells(m.name, "y")
    ensures Lower(m.name) == "color" <==> Spells(m.name, "color")
  {
    LowerSpells(m.name, "x");
    LowerSpells(m.name, "y");
    LowerSpells(m.name, "color");
  }

  /** One member sets at most the field it names. */
  lemma OneMember(d: DrawData, m: Member)
    ensures Assign(d, m).Some? <==> Acceptable(m)
    ensures Assign(d, m).Some? ==> var r := Assign(d, m).value;
      && (if Sets(m, "x") then m.json.Number? && ParseInt(m.json.text) == Some(r.x) else r.x == d.x)
      && (if Sets(m, "y") then m.json.Number? && ParseInt(m.json.text) == Some(r.y) else r.y == d.y)
      && (if Sets(m, "color") then m.json == String(r.color) else r.color == d.color)
  {
    hide Lower, Spells, ParseInt;
    KeysSpell(m);
  }

  lemma SetsFrom(m: Member, ms: seq<Member>, key: string)
    ensures NoneSets([m] + ms, key) <==> !Sets(m, key) && NoneSets(ms, key)
    ensures forall i :: LastSets(ms, i, key) ==> LastSets([m] + ms, i + 1, key)
    ensures Sets(m, key) && NoneSets(ms, key) ==> LastSets([m] + ms, 0, key)
  {
    hide Sets;
    var all := [m] + ms;
    assert forall j :: 0 <= j < |ms| ==> all[j + 1] == ms[j];
    assert forall j :: 0 < j < |all| ==> all[j] == ms[j - 1];
    assert all[0] == m;
  }

  lemma IntFrom(m: Member, ms: seq<Member>, key: string, unset: Int64, first: Int64, v: Int64)
    requires IntRead(ms, key, first, v)
    requires if Sets(m, key) then m.json.Number? && ParseInt(m.json.text) == Some(first) else first == unset
    ensures IntRead([m] + ms, key, unset, v)
  {
    hide Sets, ParseInt;
    SetsFrom(m, ms, key);
    if !NoneSets(ms, key) {
      var i :| LastSets(ms, i, key) && ms[i].json.Number? && ParseInt(ms[i].json.text) == Some(v);
      assert ([m] + ms)[i + 1] == ms[i] && LastSets([m] + ms, i + 1, key);
    } else if Sets(m, key) {
      assert ([m] + ms)[0] == m && v == first;
    }
  }

  lemma TextFrom(m: Member, ms: seq<Member>, key: string, unset: string, first: string, v: string)
    requires TextRead(ms, key, first, v)
    requires if Sets(m, key) then m.json == String(first) else first == unset
    ensures TextRead([m] + ms, key, unset, v)
  {
    hide Sets;
    SetsFrom(m, ms, key);
    if !NoneSets(ms, key) {
      var i :| LastSets(ms, i, key) && ms[i].json == String(v);
      assert ([m] + ms)[i + 1] == ms[i] && LastSets([m] + ms, i + 1, key);
    } else if Sets(m, key) {
      assert ([m] + ms)[0] == m && v == first;
    }
  }

  /** An object is refused exactly if a coordinate or a colour in it, in whatever case its
      name is written, has a value of the wrong type. Otherwise each field is what the last
      member of that name says that is not null, and members of other names count for nothing. */
  lemma {:induction false} MembersDecide(d: DrawData, ms: seq<Member>)
    ensures AssignAll(d, ms).Some? <==> forall i :: 0 <= i < |ms| ==> Acceptable(ms[i])
    ensures AssignAll(d, ms).Some? ==> var r := AssignAll(d, ms).value;
      IntRead(ms, "x", d.x, r.x) && IntRead(ms, "y", d.y, r.y) && TextRead(ms, "color", d.color, r.color)
    decreases |ms|
  {
    hide Assign, Acceptable, Sets;
    if ms != [] {
      var m, rest := ms[0], ms[1..];
      OneMember(d, m);
      assert ms == [m] + rest;
      assert forall i :: 0 < i < |ms| ==> ms[i] == rest[i - 1];
      if Acceptable(m) {
        var first := Assign(d, m).value;
        MembersDecide(first, rest);
        assert forall i :: 0 <= i < |rest| ==> rest[i] == ms[i + 1];
        if AssignAll(first, rest).Some? {
          var r := AssignAll(first, rest).value;
          IntFrom(m, rest, "x", d.x, first.x, r.x);
          IntFrom(m, rest, "y", d.y, first.y, r.y);
          TextFrom(m, rest, "color", d.color, first.color, r.color);
        }
      }
    }
  }

  /** A null stands for no data, an object for its members, and anything else is refused. */
  lemma DrawTexts(text: string)
    ensures DecodeDraw(text).Some? <==>
      Read(text) == Some(Null) || exists ms :: Read(text) == Some(Object(ms)) && forall m :: m in ms ==> Acceptable(m)
    ensures Read(text) == Some(Null) ==> DecodeDraw(text) == Some(DrawData(0, 0, ""))
    ensures forall ms, r :: Read(text) == Some(Object(ms)) && DecodeDraw(text) == Some(r) ==>
      IntRead(ms, "x", 0, r.x) && IntRead(ms, "y", 0, r.y) && TextRead(ms, "color", "", r.color)
  {
    hide Read, Acceptable, IntRead, TextRead, AssignAll;
    if ms :| Read(text) == Some(Object(ms)) {
      MembersDecide(NO_DATA, ms);
      assert (forall i :: 0 <= i < |ms| ==> Acceptable(ms[i])) <==> forall m :: m in ms ==> Acceptable(m);
    }
  }

  // ----- board states ------------------------------------------------------------

  ghost predicate LastNamed(ms: seq<Member>, i: int, name: string) {
    0 <= i < |ms| && ms[i].name == name && forall j :: i < j < |ms| ==> ms[j].name != name
  }

  /** Some member has this name, and the last such says this; a null says the empty text. */
  ghost predicate EntryRead(ms: seq<Member>, name: string, v: string) {
    exists i :: LastNamed(ms, i, name) && (ms[i].json == String(v) || (ms[i].json.Null? && v == ""))
  }

  lemma EntrySnoc(ms: seq<Member>, m: Member, name: string, v: string)
    ensures EntryRead(ms + [m], name, v) <==>
      if m.name == name then m.json == String(v) || (m.json.Null? && v == "") else EntryRead(ms, name, v)
  {
    var all := ms + [m];
    assert forall i :: 0 <= i < |ms| ==> all[i] == ms[i];
    if m.name == name {
      assert LastNamed(all, |ms|, name);
    } else {
      assert forall i :: LastNamed(all, i, name) <==> LastNamed(ms, i, name);
    }
  }

  /** Members become cells exactly if each says a text or null; a cell has what the last
      member of its very name says. */
  lemma {:induction false} EntriesDecide(ms: seq<Member>)
    ensures EntriesOf(ms).Some? <==> forall m :: m in ms ==> m.json.String? || m.json.Null?
    ensures EntriesOf(ms).Some? ==>
      forall k, v :: (k in EntriesOf(ms).value && EntriesOf(ms).value[k] == v) <==> EntryRead(ms, k, v)
  {
    hide EntryRead;
    if ms == [] {
      assert forall k, v :: !EntryRead([], k, v) by {
        NoEntries();
      }
    } else {
      var init, m := ms[..|ms| - 1], ms[|ms| - 1];
      EntriesDecide(init);
      assert ms == init + [m];
      forall k, v
        ensures EntryRead(ms, k, v) <==>
          if m.name == k then m.json == String(v) || (m.json.Null? && v == "") else EntryRead(init, k, v)
      {
        EntrySnoc(init, m, k, v);
      }
    }
  }

  lemma NoEntries()
    ensures forall k, v :: !EntryRead([], k, v)
  {
  }

  /** No text and a null stand for the empty board, an object for its cells, and anything
      else is refused. */
  lemma StateTexts(text: string)
    ensures DecodeState(text).Ok? <==>
      || text == "" || Read(text) == Some(Null)
      || exists ms: seq<Member> :: Read(text) == Some(Object(ms)) && forall m :: m in ms ==> m.json.String? || m.json.Null?
    ensures text == "" || Read(text) == Some(Null) ==> DecodeState(text) == Ok(map[])
    ensures forall ms, b :: text != "" && Read(text) == Some(Object(ms)) && DecodeState(text) == Ok(b) ==>
      forall k, v :: (k in b && b[k] == v) <==> EntryRead(ms, k, v)
  {
    hide Read, EntryRead, EntriesOf;
    if ms :| Read(text) == Some(Object(ms)) {
      EntriesDecide(ms);
    }
    assert text == "" ==> DecodeState(text).Ok?;
  }
}
