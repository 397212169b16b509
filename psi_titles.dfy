/** What `addTitlesToProperties` promises: every property schema, at every
    level of nested object schemas, ends up with a title, titles already
    there are kept, and a second pass changes nothing. */
module PsiTitles {
  import opened Wrappers
  import opened Json
  import opened PsiCompile

  // ---- a schema whose property schemas all have titles ---------------------------------

  /** A property schema that `addTitlesToProperties` leaves alone: not `null`,
      titled when it is an object, and titled all the way down when it is an
      object schema. */
  predicate SubTitled(sub: JSON)
    decreases sub, 2
  {
    !sub.Null?
    && (sub.Obj? ==>
          Get(sub.fields, "title").Some?
          && (Get(sub.fields, "type") == Some(Str("object")) ==> PropsTitled(sub)))
  }

  /** Every schema under `properties` (an object or an array of them) is titled. */
  predicate PropsTitled(s: JSON)
    requires s.Obj?
    decreases s, 1
  {
    var props := Get(s.fields, "properties");
    props.None? || !Truthy(props.value)
    || (assert props.value < s by { GetSmaller(s.fields, "properties"); }
        (props.value.Obj? ==> MembersTitled(props.value, 0))
        && (props.value.Arr? ==> ItemsTitled(props.value, 0)))
  }

  predicate MembersTitled(props: JSON, i: nat)
    requires props.Obj? && i <= |props.fields|
    decreases props, 0, |props.fields| - i
  {
    i == |props.fields|
    || (assert props.fields[i] in props.fields; SubTitled(props.fields[i].1) && MembersTitled(props, i + 1))
  }

  predicate ItemsTitled(props: JSON, i: nat)
    requires props.Arr? && i <= |props.items|
    decreases props, 0, |props.items| - i
  {
    i == |props.items| || (SubTitled(props.items[i]) && ItemsTitled(props, i + 1))
  }

  /** Storing what is already there changes nothing. */
  lemma PutSame(fields: seq<(string, JSON)>, k: string, v: JSON)
    requires Get(fields, k) == Some(v)
    ensures Put(fields, k, v) == fields
  {
    var i := Lookup(fields, k).value;
    assert fields[i] == (k, v);
  }

  // ---- titled schemas are a fixed point ----------------------------------------------------

  lemma {:induction false} TitleOneFixed(sub: JSON, title: JSON)
    requires SubTitled(sub)
    ensures TitleOne(sub, title) == Success(sub)
    decreases sub, 2
  {
    if sub.Obj? && Get(sub.fields, "type") == Some(Str("object")) {
      AddTitlesOfFixed(sub);
    }
  }

  lemma {:induction false} AddTitlesOfFixed(s: JSON)
    requires s.Obj? && PropsTitled(s)
    ensures AddTitlesOf(s, s) == Success(s)
    decreases s, 1
  {
    var props := Get(s.fields, "properties");
    if props.Some? && Truthy(props.value) {
      GetSmaller(s.fields, "properties");
      if props.value.Obj? {
        var fields := props.value.fields;
        assert fields[..0] == [];
        TitleMembersFixed(props.value, 0);
        PutSame(s.fields, "properties", Obj(fields));
      } else if props.value.Arr? {
        var items := props.value.items;
        assert items[..0] == [];
        TitleItemsFixed(props.value, 0);
        PutSame(s.fields, "properties", Arr(items));
      }
    }
  }

  lemma {:induction false} TitleMembersFixed(props: JSON, i: nat)
    requires props.Obj? && i <= |props.fields| && MembersTitled(props, i)
    ensures TitleMembers(props, props.fields, i, props.fields[..i]) == Success(props.fields)
    decreases props, 0, |props.fields| - i
  {
    var fields := props.fields;
    if i == |fields| {
      assert fields[..i] == fields;
    } else {
      assert fields[i] in fields;
      TitleOneFixed(fields[i].1, Str(fields[i].0));
      assert fields[..i] + [(fields[i].0, fields[i].1)] == fields[..i + 1];
      TitleMembersFixed(props, i + 1);
    }
  }

  lemma {:induction false} TitleItemsFixed(props: JSON, i: nat)
    requires props.Arr? && i <= |props.items| && ItemsTitled(props, i)
    ensures TitleItems(props, props.items, i, props.items[..i]) == Success(props.items)
    decreases props, 0, |props.items| - i
  {
    var items := props.items;
    if i == |items| {
      assert items[..i] == items;
    } else {
      TitleOneFixed(items[i], Num(i));
      assert items[..i] + [items[i]] == items[..i + 1];
      TitleItemsFixed(props, i + 1);
    }
  }

  /** A schema whose property schemas all have titles comes back unchanged. */
  lemma AddTitlesFixed(s: JSON)
    requires s.Obj? && PropsTitled(s)
    ensures AddTitles(s) == Success(s)
  {
    AddTitlesOfFixed(s);
  }

  // ---- the result is titled ------------------------------------------------------------------

  lemma {:induction false} MembersTitledAll(props: JSON, i: nat)
    requires props.Obj? && i <= |props.fields|
    ensures MembersTitled(props, i) <==> forall j :: i <= j < |props.fields| ==> SubTitled(props.fields[j].1)
    decreases |props.fields| - i
  {
    if i < |props.fields| {
      MembersTitledAll(props, i + 1);
    }
  }

  lemma {:induction false} ItemsTitledAll(props: JSON, i: nat)
    requires props.Arr? && i <= |props.items|
    ensures ItemsTitled(props, i) <==> forall j :: i <= j < |props.items| ==> SubTitled(props.items[j])
    decreases |props.items| - i
  {
    if i < |props.items| {
      ItemsTitledAll(props, i + 1);
    }
  }

  lemma {:induction false} TitleOneTitles(sub: JSON, title: JSON)
    ensures var r := TitleOne(sub, title); r.Success? ==> SubTitled(r.value)
    decreases sub, 2
  {
    var r := TitleOne(sub, title);
    if r.Success? && sub.Obj? {
      var titled := if Get(sub.fields, "title").None? then Obj(Put(sub.fields, "title", title)) else sub;
      if Get(sub.fields, "type") == Some(Str("object")) {
        AddTitlesOfTitles(sub, titled);
      }
    }
  }

  lemma {:induction false} AddTitlesOfTitles(sub: JSON, titled: JSON)
    requires sub.Obj? && titled.Obj?
    requires Get(titled.fields, "properties") == Get(sub.fields, "properties")
    ensures var r := AddTitlesOf(sub, titled); r.Success? ==> PropsTitled(r.value)
    decreases sub, 1
  {
    var r := AddTitlesOf(sub, titled);
    var props := Get(titled.fields, "properties");
    if r.Success? && props.Some? && Truthy(props.value) {
      GetSmaller(sub.fields, "properties");
      if props.value.Obj? {
        var out := TitleMembers(props.value, props.value.fields, 0, []).value;
        TitleMembersTitles(props.value, 0, []);
        assert forall j :: 0 <= j < |out| ==> SubTitled(out[j].1);
        assert r.value == Obj(Put(titled.fields, "properties", Obj(out)));
        MembersTitledAll(Obj(out), 0);
        assert Get(r.value.fields, "properties") == Some(Obj(out));
        assert MembersTitled(Obj(out), 0);
      } else if props.value.Arr? {
        var out := TitleItems(props.value, props.value.items, 0, []).value;
        TitleItemsTitles(props.value, 0, []);
        assert forall j :: 0 <= j < |out| ==> SubTitled(out[j]);
        assert r.value == Obj(Put(titled.fields, "properties", Arr(out)));
        ItemsTitledAll(Arr(out), 0);
        assert Get(r.value.fields, "properties") == Some(Arr(out));
        assert ItemsTitled(Arr(out), 0);
      }
    }
  }

  lemma {:induction false} TitleMembersTitles(props: JSON, i: nat, acc: seq<(string, JSON)>)
    requires props.Obj? && i <= |props.fields|
    requires forall j :: 0 <= j < |acc| ==> SubTitled(acc[j].1)
    ensures var r := TitleMembers(props, props.fields, i, acc);
      r.Success? ==> forall j :: 0 <= j < |r.value| ==> SubTitled(r.value[j].1)
    decreases props, 0, |props.fields| - i
  {
    var fields := props.fields;
    if i < |fields| {
      assert fields[i] in fields;
      var sub := TitleOne(fields[i].1, Str(fields[i].0));
      if sub.Success? {
        TitleOneTitles(fields[i].1, Str(fields[i].0));
        var acc1 := acc + [(fields[i].0, sub.value)];
        assert forall j :: 0 <= j < |acc1| ==> SubTitled(acc1[j].1) by {
          forall j | 0 <= j < |acc1| ensures SubTitled(acc1[j].1) {
            if j < |acc| { assert acc1[j] == acc[j]; }
          }
        }
        assert TitleMembers(props, fields, i, acc) == TitleMembers(props, fields, i + 1, acc1);
        TitleMembersTitles(props, i + 1, acc1);
        var r := TitleMembers(props, fields, i + 1, acc1);
        assert r.Success? ==> forall j :: 0 <= j < |r.value| ==> SubTitled(r.value[j].1);
      }
    }
  }

  lemma {:induction false} TitleItemsTitles(props: JSON, i: nat, acc: seq<JSON>)
    requires props.Arr? && i <= |props.items|
    requires forall j :: 0 <= j < |acc| ==> SubTitled(acc[j])
    ensures var r := TitleItems(props, props.items, i, acc);
      r.Success? ==> forall j :: 0 <= j < |r.value| ==> SubTitled(r.value[j])
    decreases props, 0, |props.items| - i
  {
    var items := props.items;
    if i < |items| {
      var sub := TitleOne(items[i], Num(i));
      if sub.Success? {
        TitleOneTitles(items[i], Num(i));
        var acc1 := acc + [sub.value];
        assert forall j :: 0 <= j < |acc1| ==> SubTitled(acc1[j]) by {
          forall j | 0 <= j < |acc1| ensures SubTitled(acc1[j]) {
            if j < |acc| { assert acc1[j] == acc[j]; }
          }
        }
        assert TitleItems(props, items, i, acc) == TitleItems(props, items, i + 1, acc1);
        TitleItemsTitles(props, i + 1, acc1);
        var r := TitleItems(props, items, i + 1, acc1);
        assert r.Success? ==> forall j :: 0 <= j < |r.value| ==> SubTitled(r.value[j]);
      }
    }
  }

  /** After `addTitlesToProperties` every property schema, at every level of
      nested object schemas, has a title. */
  lemma AddTitlesTitles(s: JSON)
    ensures var r := AddTitles(s); r.Success? && s.Obj? ==> r.value.Obj? && PropsTitled(r.value)
  {
    if s.Obj? {
      AddTitlesOfTitles(s, s);
    }
  }

  /** A second `addTitlesToProperties` changes nothing. */
  lemma AddTitlesIdempotent(s: JSON)
    requires AddTitles(s).Success?
    ensures AddTitles(AddTitles(s).value) == AddTitles(s)
  {
    if s.Obj? {
      AddTitlesTitles(s);
      AddTitlesFixed(AddTitles(s).value);
    }
  }
}
