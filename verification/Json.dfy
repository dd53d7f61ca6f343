/** JSON values as a JavaScript or Python program holds them: an object is its members in order. */
module Json {
  import opened Wrappers

  datatype Value =
    | Null
    | Bool(b: bool)
    | Num(n: int)
    | Str(s: string)
    | Arr(items: seq<Value>)
    | Obj(members: seq<Member>)

  datatype Member = Member(key: string, value: Value)

  function Get(ms: seq<Member>, key: string): (r: Option<Value>) {
    if ms == [] then None else if ms[0].key == key then Some(ms[0].value) else Get(ms[1..], key)
  }

  /** Assignment: the member changes where it is, or is added at the end. */
  function Put(ms: seq<Member>, key: string, value: Value): (r: seq<Member>) {
    if ms == [] then [Member(key, value)]
    else if ms[0].key == key then [Member(key, value)] + ms[1..]
    else [ms[0]] + Put(ms[1..], key, value)
  }

  function Del(ms: seq<Member>, key: string): (r: seq<Member>) {
    if ms == [] then [] else if ms[0].key == key then ms[1..] else [ms[0]] + Del(ms[1..], key)
  }

  /** No key twice, as every parsed object has it. */
  predicate Distinct(ms: seq<Member>) {
    forall i, j :: 0 <= i < j < |ms| ==> ms[i].key != ms[j].key
  }

  // ----- the laws of members -----

  lemma {:induction false} GetPut(ms: seq<Member>, key: string, value: Value, other: string)
    ensures Get(Put(ms, key, value), other) == if other == key then Some(value) else Get(ms, other)
  {
    if ms != [] {
      GetPut(ms[1..], key, value, other);
    }
  }

  lemma {:induction false} PutSame(ms: seq<Member>, key: string, value: Value)
    requires Get(ms, key) == Some(value)
    ensures Put(ms, key, value) == ms
  {
    if ms[0].key != key {
      PutSame(ms[1..], key, value);
    }
  }

  lemma {:induction false} PutPut(ms: seq<Member>, key: string, first: Value, second: Value)
    ensures Put(Put(ms, key, first), key, second) == Put(ms, key, second)
  {
    if ms != [] {
      PutPut(ms[1..], key, first, second);
    }
  }

  /** Changes of two members commute when the first is there already. */
  lemma {:induction false} PutOther(ms: seq<Member>, key: string, value: Value, other: string, otherValue: Value)
    requires key != other && Get(ms, key).Some?
    ensures Put(Put(ms, other, otherValue), key, value) == Put(Put(ms, key, value), other, otherValue)
  {
    if ms[0].key != key && ms[0].key != other {
      PutOther(ms[1..], key, value, other, otherValue);
    }
  }

  lemma {:induction false} DelPut(ms: seq<Member>, key: string, value: Value)
    requires Get(ms, key).None?
    ensures Del(Put(ms, key, value), key) == ms
  {
    if ms != [] {
      DelPut(ms[1..], key, value);
    }
  }

  lemma {:induction false} DelPutOther(ms: seq<Member>, key: string, other: string, otherValue: Value)
    requires key != other
    ensures Del(Put(ms, other, otherValue), key) == Put(Del(ms, key), other, otherValue)
  {
    if ms != [] {
      DelPutOther(ms[1..], key, other, otherValue);
    }
  }

  lemma {:induction false} GetDel(ms: seq<Member>, key: string, other: string)
    requires key != other
    ensures Get(Del(ms, key), other) == Get(ms, other)
  {
    if ms != [] {
      GetDel(ms[1..], key, other);
    }
  }

  lemma {:induction false} GetIsIn(ms: seq<Member>, key: string)
    ensures Get(ms, key).Some? <==> exists i :: 0 <= i < |ms| && ms[i].key == key
  {
    if ms != [] {
      GetIsIn(ms[1..], key);
      if i :| 0 <= i < |ms| && ms[i].key == key {
        if i > 0 {
          assert ms[1..][i - 1].key == key;
        }
      }
    }
  }

  lemma {:induction false} DelAbsent(ms: seq<Member>, key: string)
    requires Distinct(ms)
    ensures Get(Del(ms, key), key).None?
  {
    if ms != [] {
      if ms[0].key == key {
        GetIsIn(ms[1..], key);
        assert forall i :: 0 <= i < |ms[1..]| ==> ms[1..][i].key == ms[i + 1].key;
      } else {
        DelAbsent(ms[1..], key);
      }
    }
  }

  lemma {:induction false} PutKeys(ms: seq<Member>, key: string, value: Value)
    ensures forall i :: 0 <= i < |Put(ms, key, value)| ==>
              Put(ms, key, value)[i].key == key || exists j :: 0 <= j < |ms| && ms[j].key == Put(ms, key, value)[i].key
  {
    if ms != [] {
      PutKeys(ms[1..], key, value);
      var r, rest := Put(ms, key, value), Put(ms[1..], key, value);
      forall i | 0 <= i < |r| ensures r[i].key == key || exists j :: 0 <= j < |ms| && ms[j].key == r[i].key {
        if i == 0 {
          assert ms[0].key == r[0].key;
        } else if ms[0].key == key {
          assert ms[i].key == r[i].key;
        } else if rest[i - 1].key != key {
          var j :| 0 <= j < |ms[1..]| && ms[1..][j].key == rest[i - 1].key;
          assert ms[j + 1].key == r[i].key;
        }
      }
    }
  }

  lemma {:induction false} DistinctPut(ms: seq<Member>, key: string, value: Value)
    requires Distinct(ms)
    ensures Distinct(Put(ms, key, value))
  {
    if ms != [] {
      DistinctPut(ms[1..], key, value);
      PutKeys(ms[1..], key, value);
    }
  }

  lemma {:induction false} DelKeys(ms: seq<Member>, key: string)
    ensures forall i :: 0 <= i < |Del(ms, key)| ==> exists j :: 0 <= j < |ms| && ms[j].key == Del(ms, key)[i].key
  {
    if ms == [] {
      assert Del(ms, key) == [];
    } else {
      DelKeys(ms[1..], key);
      var r := Del(ms, key);
      forall i | 0 <= i < |r| ensures exists j :: 0 <= j < |ms| && ms[j].key == r[i].key {
        if ms[0].key == key {
          assert ms[i + 1].key == r[i].key;
        } else if i == 0 {
          assert ms[0].key == r[0].key;
        } else {
          var j :| 0 <= j < |ms[1..]| && ms[1..][j].key == Del(ms[1..], key)[i - 1].key;
          assert ms[j + 1].key == r[i].key;
        }
      }
    }
  }

  lemma {:induction false} DistinctDel(ms: seq<Member>, key: string)
    requires Distinct(ms)
    ensures Distinct(Del(ms, key))
  {
    if ms != [] {
      DistinctDel(ms[1..], key);
      DelKeys(ms[1..], key);
    }
  }
}
