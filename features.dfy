/**
 * The one-row feature frame that `create_input_df` (backend/app.py) hands to
 * the scalers: an insertion-ordered Python dict, turned into a one-row pandas
 * DataFrame whose columns keep that order.
 */
module Features {
  import opened Wrappers
  import opened PyValues

  /** One column of the one-row frame. */
  datatype Column = Column(name: string, value: real)

  /** An insertion-ordered dict of column name to value, equally a one-row DataFrame. */
  type Frame = seq<Column>

  /** The column names, in order. */
  function Names(f: Frame): seq<string> {
    seq(|f|, i requires 0 <= i < |f| => f[i].name)
  }

  lemma NamesCons(f: Frame)
    requires f != []
    ensures Names(f) == [f[0].name] + Names(f[1..])
  {
  }

  /** The dict invariant: no column name occurs twice. */
  predicate Distinct(f: Frame) {
    forall i, j :: 0 <= i < j < |f| ==> f[i].name != f[j].name
  }

  /** `f[name]`: the value of the first column with that name, None where Python raises KeyError. */
  function Lookup(f: Frame, name: string): (r: Option<real>)
    ensures r.Some? <==> name in Names(f)
  {
    if f == [] then None
    else
      NamesCons(f);
      if f[0].name == name then Some(f[0].value) else Lookup(f[1..], name)
  }

  /** `d[name] = v`: overwrites an existing column in place, otherwise appends a new one. */
  function Assign(d: Frame, name: string, v: real): (r: Frame)
    ensures name !in Names(d) ==> r == d + [Column(name, v)]
    ensures name in Names(d) ==> Names(r) == Names(d)
    ensures Lookup(r, name) == Some(v)
  {
    if d == [] then [Column(name, v)]
    else
      NamesCons(d);
      if d[0].name == name then
        var r := [Column(name, v)] + d[1..];
        NamesCons(r);
        assert r[1..] == d[1..];
        r
      else
        var r := [d[0]] + Assign(d[1..], name, v);
        NamesCons(r);
        assert r[1..] == Assign(d[1..], name, v);
        r
  }

  /**
   * `d.update(e)`: assigns the columns of e one after another. The keys of the
   * result are those of d, in their old positions, followed by any new keys of e.
   */
  function Update(d: Frame, e: Frame): (r: Frame)
    ensures |d| <= |r| && Names(r)[..|d|] == Names(d)
    ensures forall name :: name in Names(r) <==> name in Names(d) || name in Names(e)
    decreases |e|
  {
    if e == [] then d
    else
      AssignNames(d, e[0].name, e[0].value);
      NamesCons(e);
      Update(Assign(d, e[0].name, e[0].value), e[1..])
  }

  /** `d[name] = v` keeps the keys of d in place and adds name, at the end when it is new. */
  lemma AssignNames(d: Frame, name: string, v: real)
    ensures |d| <= |Assign(d, name, v)| && Names(Assign(d, name, v))[..|d|] == Names(d)
    ensures forall other :: other in Names(Assign(d, name, v)) <==> other in Names(d) || other == name
  {
    if name !in Names(d) {
      NamesAppend(d, [Column(name, v)]);
      assert Names([Column(name, v)]) == [name];
    }
  }

  /** Python's `1 if c else 0`, as a frame value. */
  function Flag(c: bool): real {
    if c then 1.0 else 0.0
  }

  /** The names of the three quarter columns, for the keys "q1", "q2", "q3". */
  const QuarterColumnNames: seq<string> := ["1st_quarter", "2nd_quarter", "3rd_quarter"]

  /** The keys of the quarter dict that create_input_df reads; "q4" is ignored. */
  const QuarterKeys: seq<string> := ["q1", "q2", "q3"]

  /** The sections and genders that have a one-hot column. */
  const Sections: seq<string> := ["BANABA", "CABALLERO", "GEMELINA"]
  const Genders: seq<string> := ["FEMALE", "MALE"]

  /** The names of the category columns, in the order the handler lists them. */
  const CategoryColumnNames: seq<string> :=
    ["section_BANABA", "section_CABALLERO", "section_GEMELINA", "gender_FEMALE", "gender_MALE",
     "remarks_FAILED", "remarks_PASSED"]

  /** The dict passed to `data.update`: one-hot section and gender, and the two constant remarks columns. */
  function CategoryColumns(section: Json, gender: Json): Frame {
    [ Column("section_BANABA", Flag(section == JStr("BANABA"))),
      Column("section_CABALLERO", Flag(section == JStr("CABALLERO"))),
      Column("section_GEMELINA", Flag(section == JStr("GEMELINA"))),
      Column("gender_FEMALE", Flag(gender == JStr("FEMALE"))),
      Column("gender_MALE", Flag(gender == JStr("MALE"))),
      Column("remarks_FAILED", 0.0),
      Column("remarks_PASSED", 1.0) ]
  }

  /** The quarter columns for the quarter keys present, in quarter order. */
  function QuarterColumns(quarters: map<string, real>): Frame {
    (if "q1" in quarters then [Column("1st_quarter", quarters["q1"])] else [])
    + (if "q2" in quarters then [Column("2nd_quarter", quarters["q2"])] else [])
    + (if "q3" in quarters then [Column("3rd_quarter", quarters["q3"])] else [])
  }

  /** The frame create_input_df returns: the quarter columns given, then the category columns. */
  function InputColumns(quarters: map<string, real>, section: Json, gender: Json): Frame {
    QuarterColumns(quarters) + CategoryColumns(section, gender)
  }

  /** create_input_df: fills `data` key by key, then `data.update(...)` with the category columns. */
  method CreateInputDf(quarters: map<string, real>, section: Json, gender: Json) returns (df: Frame)
    ensures df == InputColumns(quarters, section, gender)
  {
    var data: Frame := [];
    if "q1" in quarters {
      data := Assign(data, "1st_quarter", quarters["q1"]);
    }
    assert Names(data) == if "q1" in quarters then ["1st_quarter"] else [];
    if "q2" in quarters {
      data := Assign(data, "2nd_quarter", quarters["q2"]);
    }
    assert "3rd_quarter" !in Names(data);
    if "q3" in quarters {
      data := Assign(data, "3rd_quarter", quarters["q3"]);
    }
    assert data == QuarterColumns(quarters);
    assert Update(data, CategoryColumns(section, gender)) == data + CategoryColumns(section, gender) by {
      CategoryColumnsAreNew(quarters, section, gender);
      UpdateWithNewColumns(data, CategoryColumns(section, gender));
    }
    data := Update(data, CategoryColumns(section, gender));
    df := data;
  }

  /** The category column names are distinct and differ from every quarter column name. */
  lemma CategoryColumnsAreNew(quarters: map<string, real>, section: Json, gender: Json)
    ensures Distinct(CategoryColumns(section, gender))
    ensures forall i :: 0 <= i < 7 ==> CategoryColumns(section, gender)[i].name !in Names(QuarterColumns(quarters))
  {
  }

  /** Updating a dict with columns it does not have yet appends them in order. */
  lemma {:induction false} UpdateWithNewColumns(d: Frame, e: Frame)
    requires Distinct(e)
    requires forall i :: 0 <= i < |e| ==> e[i].name !in Names(d)
    ensures Update(d, e) == d + e
    decreases |e|
  {
    if e != [] {
      var d' := d + [e[0]];
      calc {
        Update(d, e);
      == { UpdateFirst(d, e); }
        Update(d', e[1..]);
      == { TailStaysNew(d, e); UpdateWithNewColumns(d', e[1..]); }
        d' + e[1..];
      == { assert e == [e[0]] + e[1..]; }
        d + e;
      }
    }
  }

  /** Updating with a first column the dict does not have appends it, then goes on with the rest. */
  lemma UpdateFirst(d: Frame, e: Frame)
    requires e != [] && e[0].name !in Names(d)
    ensures Update(d, e) == Update(d + [e[0]], e[1..])
  {
  }

  /** After the first new column is appended, the remaining ones are still new and distinct. */
  lemma TailStaysNew(d: Frame, e: Frame)
    requires e != [] && Distinct(e)
    requires forall i :: 0 <= i < |e| ==> e[i].name !in Names(d)
    ensures Distinct(e[1..])
    ensures forall i :: 0 <= i < |e[1..]| ==> e[1..][i].name !in Names(d + [e[0]])
  {
    NamesAppend(d, [e[0]]);
    assert Names([e[0]]) == [e[0].name];
  }

  lemma {:induction false} NamesAppend(a: Frame, b: Frame)
    ensures Names(a + b) == Names(a) + Names(b)
  {
    assert |Names(a + b)| == |Names(a) + Names(b)|;
    forall i | 0 <= i < |a + b|
      ensures Names(a + b)[i] == (Names(a) + Names(b))[i]
    {
      if i < |a| { assert (a + b)[i] == a[i]; } else { assert (a + b)[i] == b[i - |a|]; }
    }
  }

  /** A lookup in a concatenation finds the first part's column before the second's. */
  lemma {:induction false} LookupAppend(a: Frame, b: Frame, name: string)
    ensures Lookup(a + b, name) == if name in Names(a) then Lookup(a, name) else Lookup(b, name)
  {
    if a != [] {
      assert (a + b)[1..] == a[1..] + b;
      assert Names(a) == [a[0].name] + Names(a[1..]);
      LookupAppend(a[1..], b, name);
    } else {
      assert a + b == b;
    }
  }

  /** In a dict with distinct names, looking up the name of column i gives that column's value. */
  lemma {:induction false} LookupAt(f: Frame, i: nat)
    requires Distinct(f) && i < |f|
    ensures Lookup(f, f[i].name) == Some(f[i].value)
  {
    if i > 0 {
      assert f[1..][i - 1] == f[i];
      LookupAt(f[1..], i - 1);
    }
  }

  /** `df[cols]`: the named columns in the order asked for; None where pandas raises KeyError. */
  function SelectColumns(f: Frame, cols: seq<string>): (r: Option<Frame>)
    ensures r.Some? <==> forall c :: c in cols ==> c in Names(f)
    ensures r.Some? ==> Names(r.value) == cols
    ensures r.Some? ==> forall i :: 0 <= i < |cols| ==> Lookup(f, cols[i]) == Some(r.value[i].value)
  {
    if forall c :: c in cols ==> c in Names(f) then
      Some(seq(|cols|, i requires 0 <= i < |cols| => Column(cols[i], Lookup(f, cols[i]).value)))
    else
      None
  }

  /** Assigning one column leaves the value of every other column as it was. */
  lemma {:induction false} AssignOthers(d: Frame, name: string, v: real, other: string)
    requires other != name
    ensures Lookup(Assign(d, name, v), other) == Lookup(d, other)
  {
    if d != [] && d[0].name != name {
      var r := Assign(d, name, v);
      assert r == [d[0]] + Assign(d[1..], name, v);
      assert r[1..] == Assign(d[1..], name, v);
      AssignOthers(d[1..], name, v, other);
    } else if d != [] {
      var r := Assign(d, name, v);
      assert r[1..] == d[1..];
    }
  }

  /** Assignment keeps the dict invariant. */
  lemma AssignKeepsDistinct(d: Frame, name: string, v: real)
    requires Distinct(d)
    ensures Distinct(Assign(d, name, v))
  {
    var r := Assign(d, name, v);
    if name !in Names(d) {
      forall i | 0 <= i < |d| ensures d[i].name != name {
        assert Names(d)[i] == d[i].name;
      }
    } else {
      forall i, j | 0 <= i < j < |r| ensures r[i].name != r[j].name {
        assert r[i].name == Names(r)[i] == Names(d)[i] == d[i].name;
        assert r[j].name == Names(r)[j] == Names(d)[j] == d[j].name;
      }
    }
  }

  /**
   * `d.update(e)` with distinct names in e: the names of e take their value
   * from e, every other name keeps its value from d.
   */
  lemma {:induction false} UpdateLookup(d: Frame, e: Frame, name: string)
    requires Distinct(e)
    ensures Lookup(Update(d, e), name) == if name in Names(e) then Lookup(e, name) else Lookup(d, name)
    decreases |e|
  {
    if e != [] {
      var d' := Assign(d, e[0].name, e[0].value);
      NamesCons(e);
      assert Distinct(e[1..]) by {
        forall i, j | 0 <= i < j < |e[1..]| ensures e[1..][i].name != e[1..][j].name {
          assert e[1..][i] == e[i + 1] && e[1..][j] == e[j + 1];
        }
      }
      UpdateLookup(d', e[1..], name);
      if name == e[0].name {
        assert name !in Names(e[1..]) by {
          forall i | 0 <= i < |e[1..]| ensures Names(e[1..])[i] != name {
            assert Names(e[1..])[i] == e[i + 1].name;
          }
        }
      } else {
        AssignOthers(d, e[0].name, e[0].value, name);
      }
    }
  }

  /** `d.update(e)` keeps the dict invariant. */
  lemma {:induction false} UpdateKeepsDistinct(d: Frame, e: Frame)
    requires Distinct(d)
    ensures Distinct(Update(d, e))
    decreases |e|
  {
    if e != [] {
      AssignKeepsDistinct(d, e[0].name, e[0].value);
      UpdateKeepsDistinct(Assign(d, e[0].name, e[0].value), e[1..]);
    }
  }

  /** The frame create_input_df builds has no column name twice. */
  lemma InputColumnsDistinct(quarters: map<string, real>, section: Json, gender: Json)
    ensures Distinct(InputColumns(quarters, section, gender))
  {
    var q: Frame, c: Frame := QuarterColumns(quarters), CategoryColumns(section, gender);
    CategoryColumnsAreNew(quarters, section, gender);
    forall i, j | 0 <= i < j < |q + c| ensures (q + c)[i].name != (q + c)[j].name {
      if j >= |q| && i < |q| {
        assert Names(q)[i] == q[i].name;
        assert (q + c)[j] == c[j - |q|];
      }
    }
  }

  /** Each quarter column is in the frame exactly when its key is in the quarter dict, with the key's value. */
  lemma QuarterColumnsInInput(quarters: map<string, real>, section: Json, gender: Json, i: nat)
    requires i < 3
    ensures Lookup(InputColumns(quarters, section, gender), QuarterColumnNames[i])
         == if QuarterKeys[i] in quarters then Some(quarters[QuarterKeys[i]]) else None
  {
    var q: Frame, c: Frame := QuarterColumns(quarters), CategoryColumns(section, gender);
    var name := QuarterColumnNames[i];
    assert name !in Names(c) by {
      assert Names(c) == CategoryColumnNames;
    }
    LookupAppend(q, c, name);
    var first := if "q1" in quarters then [Column("1st_quarter", quarters["q1"])] else [];
    var second := if "q2" in quarters then [Column("2nd_quarter", quarters["q2"])] else [];
    var third := if "q3" in quarters then [Column("3rd_quarter", quarters["q3"])] else [];
    LookupAppend(first + second, third, name);
    LookupAppend(first, second, name);
    NamesAppend(first, second);
  }

  /** Each category column is found in the frame with its own value: no quarter column shadows it. */
  lemma CategoryColumnInInput(quarters: map<string, real>, section: Json, gender: Json, j: nat)
    requires j < 7
    ensures Lookup(InputColumns(quarters, section, gender), CategoryColumns(section, gender)[j].name)
         == Some(CategoryColumns(section, gender)[j].value)
  {
    var q: Frame, c: Frame := QuarterColumns(quarters), CategoryColumns(section, gender);
    CategoryColumnsAreNew(quarters, section, gender);
    LookupAppend(q, c, c[j].name);
    LookupAt(c, j);
  }

  /**
   * The category columns: one 0/1 flag per known section and gender, set when the
   * value is that very string, and the two constant remarks columns.
   */
  lemma CategoryColumnsInInput(quarters: map<string, real>, section: Json, gender: Json)
    ensures Lookup(InputColumns(quarters, section, gender), "section_BANABA") == Some(Flag(section == JStr("BANABA")))
    ensures Lookup(InputColumns(quarters, section, gender), "section_CABALLERO") == Some(Flag(section == JStr("CABALLERO")))
    ensures Lookup(InputColumns(quarters, section, gender), "section_GEMELINA") == Some(Flag(section == JStr("GEMELINA")))
    ensures Lookup(InputColumns(quarters, section, gender), "gender_FEMALE") == Some(Flag(gender == JStr("FEMALE")))
    ensures Lookup(InputColumns(quarters, section, gender), "gender_MALE") == Some(Flag(gender == JStr("MALE")))
    ensures Lookup(InputColumns(quarters, section, gender), "remarks_FAILED") == Some(0.0)
    ensures Lookup(InputColumns(quarters, section, gender), "remarks_PASSED") == Some(1.0)
  {
    CategoryColumnInInput(quarters, section, gender, 0);
    CategoryColumnInInput(quarters, section, gender, 1);
    CategoryColumnInInput(quarters, section, gender, 2);
    CategoryColumnInInput(quarters, section, gender, 3);
    CategoryColumnInInput(quarters, section, gender, 4);
    CategoryColumnInInput(quarters, section, gender, 5);
    CategoryColumnInInput(quarters, section, gender, 6);
  }

  /** Exactly one section flag is set when the section is a known one, none otherwise. */
  lemma SectionIsOneHot(section: Json)
    ensures Flag(section == JStr("BANABA")) + Flag(section == JStr("CABALLERO")) + Flag(section == JStr("GEMELINA"))
         == if exists i :: 0 <= i < |Sections| && section == JStr(Sections[i]) then 1.0 else 0.0
  {
    if section == JStr("BANABA") { assert section == JStr(Sections[0]); }
    if section == JStr("CABALLERO") { assert section == JStr(Sections[1]); }
    if section == JStr("GEMELINA") { assert section == JStr(Sections[2]); }
  }

  /** Exactly one gender flag is set when the gender is a known one, none otherwise. */
  lemma GenderIsOneHot(gender: Json)
    ensures Flag(gender == JStr("FEMALE")) + Flag(gender == JStr("MALE"))
         == if exists i :: 0 <= i < |Genders| && gender == JStr(Genders[i]) then 1.0 else 0.0
  {
    if gender == JStr("FEMALE") { assert gender == JStr(Genders[0]); }
    if gender == JStr("MALE") { assert gender == JStr(Genders[1]); }
  }

  /** Only the keys q1..q3 of the quarter dict reach the frame; "q4" and any other key are ignored. */
  lemma InputIgnoresOtherKeys(quarters: map<string, real>, others: map<string, real>, section: Json, gender: Json)
    requires forall i :: 0 <= i < |QuarterKeys| ==> (QuarterKeys[i] in quarters <==> QuarterKeys[i] in others)
    requires forall i :: 0 <= i < |QuarterKeys| && QuarterKeys[i] in quarters ==> quarters[QuarterKeys[i]] == others[QuarterKeys[i]]
    ensures InputColumns(quarters, section, gender) == InputColumns(others, section, gender)
  {
    assert QuarterKeys[0] == "q1" && QuarterKeys[1] == "q2" && QuarterKeys[2] == "q3";
  }

  /** When the quarter dict has exactly the keys q1..qn, the frame starts with the first n quarter columns. */
  lemma QuarterColumnsOfFirstKeys(quarters: map<string, real>, n: nat)
    requires 1 <= n <= 3
    requires forall i :: 0 <= i < 3 ==> (QuarterKeys[i] in quarters <==> i < n)
    ensures Names(QuarterColumns(quarters)) == QuarterColumnNames[..n]
  {
    assert "q1" in quarters by { assert QuarterKeys[0] == "q1"; }
    assert "q2" in quarters <==> n > 1 by { assert QuarterKeys[1] == "q2"; }
    assert "q3" in quarters <==> n > 2 by { assert QuarterKeys[2] == "q3"; }
    var q := QuarterColumns(quarters);
    assert |q| == n;
    forall i | 0 <= i < n ensures Names(q)[i] == QuarterColumnNames[i] {
      assert Names(q)[i] == q[i].name;
    }
  }
}
