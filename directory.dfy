/**
 * `fs.readdirSync` on a per-customer directory `<family>/<line>/<day>/`:
 * the owners of the files there, in the order the directory lists them.
 * The listing is sorted by the code units of the file names
 * `<owner>.json`, so two owners compare by their names with the
 * extension appended.
 */
module Directory {
  import Text
  import opened FileStore

  /** Whether the file of owner `a` is listed before the file of owner `b`. */
  predicate ListedBefore(a: string, b: string)
  {
    Text.StrLess(a + ".json", b + ".json")
  }

  lemma {:induction false} StrLessAsymmetric(a: string, b: string)
    ensures Text.StrLess(a, b) ==> !Text.StrLess(b, a)
    decreases |a|
  {
    if |a| > 0 && |b| > 0 && a[0] == b[0] {
      StrLessAsymmetric(a[1..], b[1..]);
    }
  }

  /** Different owners have different file names, which the order tells apart. */
  lemma ListedBeforeTotal(a: string, b: string)
    requires a != b
    ensures ListedBefore(a, b) || ListedBefore(b, a)
  {
    var fa, fb := a + ".json", b + ".json";
    if |a| != |b| {
      assert |fa| != |fb|;
    } else {
      var k :| 0 <= k < |a| && a[k] != b[k];
      assert fa[k] == a[k] && fb[k] == b[k];
    }
    Text.StrLessTotal(fa, fb);
  }

  /** `m` is the owner listed first among `owners`. */
  predicate IsFirst(m: string, owners: set<string>)
  {
    m in owners && forall x :: x in owners && x != m ==> ListedBefore(m, x)
  }

  lemma {:induction false} FirstExists(owners: set<string>)
    requires owners != {}
    ensures exists m :: IsFirst(m, owners)
    decreases |owners|
  {
    var x :| x in owners;
    if owners == {x} {
      assert IsFirst(x, owners);
    } else {
      var rest := owners - {x};
      FirstExists(rest);
      var m :| IsFirst(m, rest);
      ListedBeforeTotal(m, x);
      if ListedBefore(m, x) {
        assert IsFirst(m, owners);
      } else {
        forall y | y in owners && y != x
          ensures ListedBefore(x, y)
        {
          if y != m {
            assert y in rest && ListedBefore(m, y) && ListedBefore(x, m);
            Text.StrLessTransitive(x + ".json", m + ".json", y + ".json");
          }
        }
        assert IsFirst(x, owners);
      }
    }
  }

  lemma FirstUnique(owners: set<string>)
    ensures forall a, b :: IsFirst(a, owners) && IsFirst(b, owners) ==> a == b
  {
    forall a, b | IsFirst(a, owners) && IsFirst(b, owners)
      ensures a == b
    {
      StrLessAsymmetric(a + ".json", b + ".json");
    }
  }

  /** The owners in listing order: each exactly once, each before all that follow. */
  function Sorted(owners: set<string>): (r: seq<string>)
    ensures |r| == |owners|
    ensures forall x :: x in r <==> x in owners
    ensures forall i, j | 0 <= i < j < |r| :: ListedBefore(r[i], r[j])
    decreases |owners|
  {
    if owners == {} then []
    else
      FirstExists(owners);
      FirstUnique(owners);
      var m :| IsFirst(m, owners);
      var rest := Sorted(owners - {m});
      assert forall x :: x in rest ==> ListedBefore(m, x);
      [m] + rest
  }

  /** The owners with a file of the family `files` in `<line>/<day>/`, as listed. */
  function Listing<T>(files: map<FileKey, T>, line: string, day: string): (r: seq<string>)
    ensures forall o :: o in r <==> FileKey(line, day, o) in files
    ensures forall i, j | 0 <= i < j < |r| :: ListedBefore(r[i], r[j])
  {
    var owners := set k | k in files && k.line == line && k.day == day :: k.owner;
    assert forall o :: o in owners <==> FileKey(line, day, o) in files by {
      forall o | FileKey(line, day, o) in files
        ensures o in owners
      {
        var k := FileKey(line, day, o);
        assert k in files && k.line == line && k.day == day;
      }
    }
    Sorted(owners)
  }
}
