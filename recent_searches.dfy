/** The recent-search list of the dashboard (pages/Index.tsx): a most-recent-first list of
    cities, de-duplicated by name without regard to case, cut to a fixed capacity and
    written to browser storage after every change. The list transformation is a pure
    function; the storage is a map from keys to stored lists. */
module RecentSearchStore {
  import opened WeatherTypes

  const MaxRecentSearches: nat := 5
  const LocalStorageKey: string := "recentSearches"

  /** Browser storage, with each stored value already deserialised into a list. */
  type Storage = map<string, seq<RecentCity>>

  /** `localStorage.setItem(key, value)`: the key now holds `value`, no other key changes. */
  function SetItem(st: Storage, key: string, value: seq<RecentCity>): (st': Storage)
    ensures key in st' && st'[key] == value
    ensures forall k :: k != key ==> (k in st' <==> k in st)
    ensures forall k :: k != key && k in st ==> st'[k] == st[k]
  {
    st[key := value]
  }

  /** `localStorage.getItem(key)`: the stored list, if there is one. */
  function GetItem(st: Storage, key: string): (r: Option<seq<RecentCity>>)
    ensures r.Some? <==> key in st
    ensures r.Some? ==> r.value == st[key]
  {
    if key in st then Some(st[key]) else None
  }

  // ---------------------------------------------------------------------------
  // Case folding

  /** Lower-cases one ASCII letter; every other character is left as it is. */
  function LowerChar(c: char): char
  {
    if 'A' <= c <= 'Z' then (c as int - 'A' as int + 'a' as int) as char else c
  }

  /** `String.prototype.toLowerCase`, restricted to ASCII letters. */
  function ToLower(s: string): string
  {
    seq(|s|, i requires 0 <= i < |s| => LowerChar(s[i]))
  }

  /** The filter's test: the entry's name equals `name` once both are lower-cased. */
  predicate Matches(entry: RecentCity, name: string)
  {
    ToLower(entry.name) == ToLower(name)
  }

  /** No two entries have names that are equal without regard to case. */
  predicate NoDuplicateNames(s: seq<RecentCity>)
  {
    forall i, j :: 0 <= i < j < |s| ==> !Matches(s[i], s[j].name)
  }

  /** `a` is obtained from `b` by deleting elements, keeping the order of the rest. */
  ghost predicate IsSubsequence(a: seq<RecentCity>, b: seq<RecentCity>)
    decreases |b|
  {
    a == [] ||
    (b != [] && ((a[0] == b[0] && IsSubsequence(a[1..], b[1..])) || IsSubsequence(a, b[1..])))
  }

  // ---------------------------------------------------------------------------
  // The list transformation of saveToRecentSearches

  /** How many entries of `s` have a name matching `name`, counted with repeats. */
  function CountMatching(s: seq<RecentCity>, name: string): (n: nat)
    ensures n <= |s|
  {
    if s == [] then 0
    else (if Matches(s[0], name) then 1 else 0) + CountMatching(s[1..], name)
  }

  /** The filter of the previous list: the entries of `prev` whose lower-cased name differs
      from the lower-cased `name`, every occurrence kept, in their old order. */
  function WithoutName(prev: seq<RecentCity>, name: string): (r: seq<RecentCity>)
    ensures |r| == |prev| - CountMatching(prev, name)
    ensures forall x :: x in r ==> x in prev && !Matches(x, name)
    ensures forall x :: x in prev && !Matches(x, name) ==> x in r
  {
    if prev == [] then []
    else if Matches(prev[0], name) then WithoutName(prev[1..], name)
    else [prev[0]] + WithoutName(prev[1..], name)
  }

  /** The new city, then the filtered previous list, cut to `MaxRecentSearches` entries. */
  function Save(prev: seq<RecentCity>, city: RecentCity): (r: seq<RecentCity>)
    ensures 1 <= |r| <= MaxRecentSearches
    ensures r[0] == city
  {
    var updated := [city] + WithoutName(prev, city.name);
    if |updated| <= MaxRecentSearches then updated else updated[..MaxRecentSearches]
  }

  // ---------------------------------------------------------------------------
  // Lemmas about the filter

  lemma {:induction false} WithoutNameIsSubsequence(prev: seq<RecentCity>, name: string)
    ensures IsSubsequence(WithoutName(prev, name), prev)
  {
    if prev != [] {
      WithoutNameIsSubsequence(prev[1..], name);
      var rest := WithoutName(prev[1..], name);
      if Matches(prev[0], name) {
        assert WithoutName(prev, name) == rest;
      } else {
        assert WithoutName(prev, name) == [prev[0]] + rest;
        assert ([prev[0]] + rest)[1..] == rest;
      }
    }
  }

  lemma {:induction false} SubsequenceOfPrefix(a: seq<RecentCity>, b: seq<RecentCity>, k: nat)
    requires IsSubsequence(a, b) && k <= |a|
    ensures IsSubsequence(a[..k], b)
    decreases |b|
  {
    if k > 0 {
      if a[0] == b[0] && IsSubsequence(a[1..], b[1..]) {
        SubsequenceOfPrefix(a[1..], b[1..], k - 1);
        assert a[..k][1..] == a[1..][..k - 1];
      } else {
        SubsequenceOfPrefix(a, b[1..], k);
      }
    }
  }

  /** A list with no entry matching `name` passes through the filter unchanged. */
  lemma {:induction false} WithoutNameUnchanged(prev: seq<RecentCity>, name: string)
    requires forall x :: x in prev ==> !Matches(x, name)
    ensures WithoutName(prev, name) == prev
  {
    if prev != [] {
      assert prev[0] in prev;
      assert forall x :: x in prev[1..] ==> x in prev;
      WithoutNameUnchanged(prev[1..], name);
      assert prev == [prev[0]] + prev[1..];
    }
  }

  lemma NoDuplicateNamesTail(prev: seq<RecentCity>)
    requires prev != [] && NoDuplicateNames(prev)
    ensures NoDuplicateNames(prev[1..])
  {
    forall i, j | 0 <= i < j < |prev| - 1 ensures !Matches(prev[1..][i], prev[1..][j].name) {
      assert prev[1..][i] == prev[i + 1] && prev[1..][j] == prev[j + 1];
    }
  }

  lemma {:induction false} WithoutNameNoDuplicates(prev: seq<RecentCity>, name: string)
    requires NoDuplicateNames(prev)
    ensures NoDuplicateNames(WithoutName(prev, name))
  {
    if prev != [] {
      var rest := prev[1..];
      NoDuplicateNamesTail(prev);
      WithoutNameNoDuplicates(rest, name);
      if !Matches(prev[0], name) {
        var fr := WithoutName(rest, name);
        var r := [prev[0]] + fr;
        assert WithoutName(prev, name) == r;
        forall i, j | 0 <= i < j < |r| ensures !Matches(r[i], r[j].name) {
          if i == 0 {
            assert r[j] == fr[j - 1];
            assert r[j] in rest;
            var k :| 0 <= k < |rest| && rest[k] == r[j];
            assert prev[k + 1] == r[j];
          } else {
            assert r[i] == fr[i - 1] && r[j] == fr[j - 1];
          }
        }
      }
    }
  }

  /** In a list without duplicate names, a name that occurs occurs once, so the filter
      removes exactly one entry. */
  lemma {:induction false} WithoutNameRemovesOne(prev: seq<RecentCity>, name: string, i: nat)
    requires NoDuplicateNames(prev)
    requires i < |prev| && Matches(prev[i], name)
    ensures |WithoutName(prev, name)| == |prev| - 1
  {
    var rest := prev[1..];
    if i == 0 {
      forall x | x in rest ensures !Matches(x, name) {
        var k :| 0 <= k < |rest| && rest[k] == x;
        assert prev[k + 1] == x;
      }
      WithoutNameUnchanged(rest, name);
    } else {
      assert !Matches(prev[0], prev[i].name);
      NoDuplicateNamesTail(prev);
      assert rest[i - 1] == prev[i];
      WithoutNameRemovesOne(rest, name, i - 1);
    }
  }

  // ---------------------------------------------------------------------------
  // Lemmas about saving a city

  /** The saved city is the only entry whose name matches it. */
  lemma SaveUniqueName(prev: seq<RecentCity>, city: RecentCity)
    ensures Matches(Save(prev, city)[0], city.name)
    ensures forall i :: 0 < i < |Save(prev, city)| ==> !Matches(Save(prev, city)[i], city.name)
  {
    var f := WithoutName(prev, city.name);
    var r := Save(prev, city);
    forall i | 0 < i < |r| ensures !Matches(r[i], city.name) {
      assert r[i] == f[i - 1];
      assert f[i - 1] in f;
    }
  }

  /** Saving keeps a duplicate-free list duplicate-free. */
  lemma SaveNoDuplicates(prev: seq<RecentCity>, city: RecentCity)
    requires NoDuplicateNames(prev)
    ensures NoDuplicateNames(Save(prev, city))
  {
    var f := WithoutName(prev, city.name);
    var r := Save(prev, city);
    WithoutNameNoDuplicates(prev, city.name);
    forall i, j | 0 <= i < j < |r| ensures !Matches(r[i], r[j].name) {
      assert r[j] == f[j - 1];
      if i == 0 {
        assert f[j - 1] in f;
      } else {
        assert r[i] == f[i - 1];
      }
    }
  }

  /** Apart from the new front entry, the result is the filtered previous list cut from
      its end: the survivors are the oldest-first prefix of the entries with another name,
      a subsequence of the previous list in its old order. */
  lemma SaveKeepsOrder(prev: seq<RecentCity>, city: RecentCity)
    ensures |Save(prev, city)| ==
      if |prev| - CountMatching(prev, city.name) < MaxRecentSearches
      then 1 + |prev| - CountMatching(prev, city.name) else MaxRecentSearches
    ensures Save(prev, city)[1..] == WithoutName(prev, city.name)[..|Save(prev, city)| - 1]
    ensures IsSubsequence(Save(prev, city)[1..], prev)
    ensures forall x :: x in Save(prev, city)[1..] ==> x in prev && !Matches(x, city.name)
  {
    var f := WithoutName(prev, city.name);
    var r := Save(prev, city);
    WithoutNameIsSubsequence(prev, city.name);
    assert r[1..] == f[..|r| - 1];
    SubsequenceOfPrefix(f, prev, |r| - 1);
  }

  /** Below capacity nothing is evicted: every entry of `prev` with another name survives. */
  lemma SaveKeepsOthers(prev: seq<RecentCity>, city: RecentCity)
    requires |prev| < MaxRecentSearches
    ensures forall x :: x in prev && !Matches(x, city.name) ==> x in Save(prev, city)
  {
    var f := WithoutName(prev, city.name);
    assert Save(prev, city) == [city] + f;
  }

  /** Saving a city already in a duplicate-free list moves it to the front: the length
      does not grow. */
  lemma SaveExistingDoesNotGrow(prev: seq<RecentCity>, city: RecentCity, i: nat)
    requires NoDuplicateNames(prev)
    requires i < |prev| && Matches(prev[i], city.name)
    ensures |Save(prev, city)| <= |prev|
    ensures |prev| <= MaxRecentSearches ==> |Save(prev, city)| == |prev|
  {
    WithoutNameRemovesOne(prev, city.name, i);
  }

  /** Saving a city whose name is not in the list prepends it and drops the oldest entry
      once the list is at capacity. */
  lemma SaveNewCity(prev: seq<RecentCity>, city: RecentCity)
    requires forall x :: x in prev ==> !Matches(x, city.name)
    ensures |prev| < MaxRecentSearches ==> Save(prev, city) == [city] + prev
    ensures |prev| >= MaxRecentSearches ==>
      Save(prev, city) == [city] + prev[..MaxRecentSearches - 1]
  {
    WithoutNameUnchanged(prev, city.name);
  }

  /** A sixth distinct city evicts the oldest of five. */
  lemma SaveEvictsOldest(prev: seq<RecentCity>, city: RecentCity)
    requires |prev| == MaxRecentSearches && NoDuplicateNames(prev)
    requires forall x :: x in prev ==> !Matches(x, city.name)
    ensures |Save(prev, city)| == MaxRecentSearches
    ensures prev[MaxRecentSearches - 1] !in Save(prev, city)
  {
    SaveNewCity(prev, city);
    var r := Save(prev, city);
    var last := prev[MaxRecentSearches - 1];
    assert last in prev;
    forall k | 0 <= k < |r| ensures r[k] != last {
      if k > 0 {
        assert r[k] == prev[k - 1];
        assert !Matches(prev[k - 1], last.name);
      }
    }
  }

  /** Saving the same city twice in a row is the same as saving it once. */
  lemma SaveIdempotent(prev: seq<RecentCity>, city: RecentCity)
    ensures Save(Save(prev, city), city) == Save(prev, city)
  {
    var r := Save(prev, city);
    SaveUniqueName(prev, city);
    var tail := r[1..];
    forall x | x in tail ensures !Matches(x, city.name) {
      var k :| 0 <= k < |tail| && tail[k] == x;
      assert r[k + 1] == x;
    }
    WithoutNameUnchanged(tail, city.name);
    assert r == [r[0]] + tail;
    assert WithoutName(r, city.name) == tail;
  }

  /** Names that differ only in case are one city: saving "Paris" over "paris" replaces it. */
  lemma SaveReplacesOtherCase()
    ensures Save([RecentCity("paris", "FR"), RecentCity("Oslo", "NO")], RecentCity("Paris", "FR"))
         == [RecentCity("Paris", "FR"), RecentCity("Oslo", "NO")]
  {
    assert ToLower("paris") == ToLower("Paris") == "paris";
    assert ToLower("Oslo") == "oslo";
  }
}
