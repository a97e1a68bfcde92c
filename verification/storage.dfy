/** The storage manager's operations with the JSON files taken away: the
    test-case collection and the result history are ordered lists, and each
    operation is a transform or a query on one of them. */
module Storage {
  import opened Wrappers
  import opened Models

  /** `sub` can be obtained from `s` by deleting elements: every kept record
      stays in its original relative order. */
  ghost predicate IsSubsequence<T>(sub: seq<T>, s: seq<T>)
    decreases |s|
  {
    if sub == [] then true
    else if s == [] then false
    else (sub[0] == s[0] && IsSubsequence(sub[1..], s[1..])) || IsSubsequence(sub, s[1..])
  }

  // ---------------------------------------------------------------------
  // Test cases

  /** The records whose id differs from `id`, in their original order
      (the list comprehension of `save_test_case` and `delete_test_case`). */
  function WithoutId(cases: seq<TestCase>, id: string): (r: seq<TestCase>)
    ensures |r| <= |cases|
    ensures forall c :: c in r <==> c in cases && c.id != id
    ensures forall i :: 0 <= i < |r| ==> r[i].id != id
  {
    if cases == [] then []
    else if cases[0].id != id then [cases[0]] + WithoutId(cases[1..], id)
    else WithoutId(cases[1..], id)
  }

  /** Dropping the records with one id keeps all others in order. */
  lemma {:induction false} WithoutIdKeepsOrder(cases: seq<TestCase>, id: string)
    ensures IsSubsequence(WithoutId(cases, id), cases)
  {
    if cases != [] {
      WithoutIdKeepsOrder(cases[1..], id);
      var rest := WithoutId(cases[1..], id);
      if cases[0].id != id {
        assert WithoutId(cases, id) == [cases[0]] + rest;
        assert ([cases[0]] + rest)[1..] == rest;
      }
    }
  }

  /** Whether some stored record carries `id`. */
  predicate HasId(cases: seq<TestCase>, id: string)
  {
    exists i :: 0 <= i < |cases| && cases[i].id == id
  }

  /** The number of stored records carrying `id`. */
  function CountId(cases: seq<TestCase>, id: string): nat
  {
    if cases == [] then 0
    else (if cases[0].id == id then 1 else 0) + CountId(cases[1..], id)
  }

  /** The store's intended invariant: no two records share an id. */
  predicate UniqueIds(cases: seq<TestCase>)
  {
    forall i, j :: 0 <= i < j < |cases| ==> cases[i].id != cases[j].id
  }

  lemma {:induction false} WithoutIdCount(cases: seq<TestCase>, id: string)
    ensures |WithoutId(cases, id)| == |cases| - CountId(cases, id)
    ensures CountId(WithoutId(cases, id), id) == 0
  {
    if cases != [] {
      WithoutIdCount(cases[1..], id);
      if cases[0].id != id {
        assert ([cases[0]] + WithoutId(cases[1..], id))[1..] == WithoutId(cases[1..], id);
      }
    }
  }

  lemma {:induction false} CountIdUnique(cases: seq<TestCase>, id: string)
    requires UniqueIds(cases)
    ensures CountId(cases, id) == if HasId(cases, id) then 1 else 0
  {
    if cases != [] {
      assert UniqueIds(cases[1..]) by {
        forall i, j | 0 <= i < j < |cases[1..]| ensures cases[1..][i].id != cases[1..][j].id {
          assert cases[1..][i] == cases[i + 1] && cases[1..][j] == cases[j + 1];
        }
      }
      CountIdUnique(cases[1..], id);
      if cases[0].id == id {
        assert !HasId(cases[1..], id) by {
          forall k | 0 <= k < |cases[1..]| ensures cases[1..][k].id != id {
            assert cases[1..][k] == cases[k + 1];
          }
        }
      } else {
        if HasId(cases, id) {
          var k :| 0 <= k < |cases| && cases[k].id == id;
          assert cases[1..][k - 1].id == id;
        }
        if HasId(cases[1..], id) {
          var k :| 0 <= k < |cases[1..]| && cases[1..][k].id == id;
          assert cases[k + 1].id == id;
        }
      }
    }
  }

  /** `save_test_case`: drop every record with the new record's id, then
      append the new record. */
  function SaveTestCase(cases: seq<TestCase>, tc: TestCase): (r: seq<TestCase>)
    ensures |r| >= 1 && r[|r| - 1] == tc
    ensures forall i :: 0 <= i < |r| - 1 ==> r[i].id != tc.id
    ensures forall c :: c in r && c != tc ==> c in cases && c.id != tc.id
    ensures forall c :: c in cases && c.id != tc.id ==> c in r
  {
    WithoutId(cases, tc.id) + [tc]
  }

  /** After a save exactly one record has the saved id, it is the last one,
      and the records before it are the other records in their old order. */
  lemma SaveTestCaseOnce(cases: seq<TestCase>, tc: TestCase)
    ensures CountId(SaveTestCase(cases, tc), tc.id) == 1
    ensures IsSubsequence(SaveTestCase(cases, tc)[..|SaveTestCase(cases, tc)| - 1], cases)
  {
    var r := SaveTestCase(cases, tc);
    var kept := WithoutId(cases, tc.id);
    assert r[..|r| - 1] == kept;
    WithoutIdCount(cases, tc.id);
    WithoutIdKeepsOrder(cases, tc.id);
    CountIdAppend(kept, tc, tc.id);
  }

  lemma {:induction false} CountIdAppend(cases: seq<TestCase>, tc: TestCase, id: string)
    ensures CountId(cases + [tc], id) == CountId(cases, id) + (if tc.id == id then 1 else 0)
  {
    if cases == [] {
      assert [] + [tc] == [tc];
    } else {
      assert (cases + [tc])[1..] == cases[1..] + [tc];
      CountIdAppend(cases[1..], tc, id);
    }
  }

  /** On a store with unique ids, saving an id already present keeps the
      count (the record is replaced), saving a fresh id adds one, and the
      ids stay unique. */
  lemma SaveTestCaseCount(cases: seq<TestCase>, tc: TestCase)
    requires UniqueIds(cases)
    ensures |SaveTestCase(cases, tc)| == if HasId(cases, tc.id) then |cases| else |cases| + 1
    ensures UniqueIds(SaveTestCase(cases, tc))
  {
    WithoutIdCount(cases, tc.id);
    CountIdUnique(cases, tc.id);
    var kept := WithoutId(cases, tc.id);
    var r := SaveTestCase(cases, tc);
    forall i, j | 0 <= i < j < |r| ensures r[i].id != r[j].id {
      if j < |r| - 1 {
        WithoutIdUniqueKept(cases, tc.id);
        assert r[i] == kept[i] && r[j] == kept[j];
      }
    }
  }

  lemma {:induction false} WithoutIdUniqueKept(cases: seq<TestCase>, id: string)
    requires UniqueIds(cases)
    ensures UniqueIds(WithoutId(cases, id))
  {
    if cases != [] {
      assert UniqueIds(cases[1..]) by {
        forall i, j | 0 <= i < j < |cases[1..]| ensures cases[1..][i].id != cases[1..][j].id {
          assert cases[1..][i] == cases[i + 1] && cases[1..][j] == cases[j + 1];
        }
      }
      WithoutIdUniqueKept(cases[1..], id);
      var rest := WithoutId(cases[1..], id);
      if cases[0].id != id {
        var r := [cases[0]] + rest;
        forall i, j | 0 <= i < j < |r| ensures r[i].id != r[j].id {
          if i == 0 {
            assert r[j] in rest;
            assert r[j] in cases[1..];
            var k :| 0 <= k < |cases[1..]| && cases[1..][k] == r[j];
            assert cases[k + 1] == r[j];
          } else {
            assert r[i] == rest[i - 1] && r[j] == rest[j - 1];
          }
        }
      }
    }
  }

  /** `get_test_case`: the first record carrying `id`, or `None`. */
  function GetTestCase(cases: seq<TestCase>, id: string): (r: Option<TestCase>)
    ensures r.None? <==> !HasId(cases, id)
    ensures r.Some? ==> exists i :: 0 <= i < |cases| && cases[i] == r.value && r.value.id == id
                                    && forall j :: 0 <= j < i ==> cases[j].id != id
  {
    if cases == [] then None
    else if cases[0].id == id then Some(cases[0])
    else
      var r := GetTestCase(cases[1..], id);
      assert HasId(cases, id) ==> HasId(cases[1..], id) by {
        if HasId(cases, id) {
          var k :| 0 <= k < |cases| && cases[k].id == id;
          assert cases[1..][k - 1].id == id;
        }
      }
      assert r.Some? ==> exists i :: 0 <= i < |cases| && cases[i] == r.value && r.value.id == id
                                     && forall j :: 0 <= j < i ==> cases[j].id != id by {
        if r.Some? {
          var i :| 0 <= i < |cases[1..]| && cases[1..][i] == r.value && r.value.id == id
                   && forall j :: 0 <= j < i ==> cases[1..][j].id != id;
          assert cases[i + 1] == r.value;
          forall j | 0 <= j < i + 1 ensures cases[j].id != id {
            if j > 0 { assert cases[j] == cases[1..][j - 1]; }
          }
        }
      }
      r
  }

  /** A record just saved is what a lookup of its id finds. */
  lemma SaveThenGet(cases: seq<TestCase>, tc: TestCase)
    ensures GetTestCase(SaveTestCase(cases, tc), tc.id) == Some(tc)
  {
  }

  /** `delete_test_case`: keep every record whose id differs. */
  function DeleteTestCase(cases: seq<TestCase>, id: string): (r: seq<TestCase>)
    ensures !HasId(r, id)
    ensures forall c :: c in cases && c.id != id ==> c in r
    ensures forall c :: c in r ==> c in cases
    ensures |r| == |cases| - CountId(cases, id)
  {
    WithoutIdCount(cases, id);
    WithoutId(cases, id)
  }

  /** Deleting an id nobody has is a no-op; otherwise the other records
      keep their relative order and a lookup of the id finds nothing. */
  lemma {:induction false} DeleteAbsentIsNoop(cases: seq<TestCase>, id: string)
    requires !HasId(cases, id)
    ensures DeleteTestCase(cases, id) == cases
  {
    if cases != [] {
      assert !HasId(cases[1..], id) by {
        forall k | 0 <= k < |cases[1..]| ensures cases[1..][k].id != id {
          assert cases[1..][k] == cases[k + 1];
        }
      }
      DeleteAbsentIsNoop(cases[1..], id);
      assert cases[0].id != id;
      assert [cases[0]] + cases[1..] == cases;
    }
  }

  lemma DeleteKeepsOrder(cases: seq<TestCase>, id: string)
    ensures IsSubsequence(DeleteTestCase(cases, id), cases)
    ensures GetTestCase(DeleteTestCase(cases, id), id) == None
  {
    WithoutIdKeepsOrder(cases, id);
  }

  // ---------------------------------------------------------------------
  // Results

  /** `save_result`: append to the history. */
  function SaveResult(results: seq<TestResult>, r: TestResult): (out: seq<TestResult>)
    ensures |out| == |results| + 1
    ensures out[..|results|] == results
    ensures out[|results|] == r
  {
    results + [r]
  }

  /** `get_results_for_test`: the results of one test, in history order. */
  function GetResultsForTest(results: seq<TestResult>, testId: string): (out: seq<TestResult>)
    ensures |out| <= |results|
    ensures forall r :: r in out <==> r in results && r.testId == testId
  {
    if results == [] then []
    else if results[0].testId == testId then [results[0]] + GetResultsForTest(results[1..], testId)
    else GetResultsForTest(results[1..], testId)
  }

  lemma {:induction false} ResultsForTestKeepsOrder(results: seq<TestResult>, testId: string)
    ensures IsSubsequence(GetResultsForTest(results, testId), results)
  {
    if results != [] {
      ResultsForTestKeepsOrder(results[1..], testId);
      var rest := GetResultsForTest(results[1..], testId);
      if results[0].testId == testId {
        assert ([results[0]] + rest)[1..] == rest;
      }
    }
  }

  /** A saved result becomes the last entry of its test's history, whose
      earlier entries are unchanged; other tests' histories are unaffected. */
  lemma {:induction false} SaveResultThenQuery(results: seq<TestResult>, r: TestResult, testId: string)
    ensures GetResultsForTest(SaveResult(results, r), testId)
            == GetResultsForTest(results, testId) + (if r.testId == testId then [r] else [])
  {
    if results == [] {
      assert SaveResult(results, r) == [r];
      assert GetResultsForTest([r][1..], testId) == [];
    } else {
      assert SaveResult(results, r)[1..] == SaveResult(results[1..], r);
      SaveResultThenQuery(results[1..], r, testId);
    }
  }
}
