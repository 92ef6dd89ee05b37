/** The header title of the `/home` layout: `titleMap[pathname]`, else the
    title of the first key `pathname` starts with, else the title of `/home`. */
module HomeLayout {
  import opened Js

  datatype Entry = Entry(key: string, title: string)

  /** `titleMap`, in declaration order (the order `Object.keys` gives). */
  const TitleMap: seq<Entry> := [
    Entry("/home", "Dialer"),
    Entry("/home/call-logs", "Call Logs"),
    Entry("/home/settings", "Settings"),
    Entry("/home/kyc", "KYC Management"),
    Entry("/home/admin/users", "User Administration")
  ]

  const Titles: set<string> := {"Dialer", "Call Logs", "Settings", "KYC Management", "User Administration"}

  predicate IsKey(entries: seq<Entry>, key: string) {
    exists i :: 0 <= i < |entries| && entries[i].key == key
  }

  /** `titleMap[key]`: the title of the entry with that key, if any. */
  function Lookup(entries: seq<Entry>, key: string): (r: Option<string>)
    ensures r.None? <==> !IsKey(entries, key)
    ensures r.Some? ==> exists i :: 0 <= i < |entries| && entries[i] == Entry(key, r.value)
  {
    if entries == [] then None
    else if entries[0].key == key then Some(entries[0].title)
    else
      var r := Lookup(entries[1..], key);
      assert IsKey(entries, key) ==> IsKey(entries[1..], key) by {
        if IsKey(entries, key) {
          var i :| 0 <= i < |entries| && entries[i].key == key;
          assert entries[1..][i - 1].key == key;
        }
      }
      assert r.Some? ==> exists i :: 0 <= i < |entries| && entries[i] == Entry(key, r.value) by {
        if r.Some? {
          var i :| 0 <= i < |entries[1..]| && entries[1..][i] == Entry(key, r.value);
          assert entries[i + 1] == Entry(key, r.value);
        }
      }
      r
  }

  /** Entry `i` is the first whose key `pathname` starts with. */
  predicate FirstPrefix(entries: seq<Entry>, pathname: string, i: int) {
    && 0 <= i < |entries| && StartsWith(pathname, entries[i].key)
    && forall j :: 0 <= j < i ==> !StartsWith(pathname, entries[j].key)
  }

  /** `Object.keys(titleMap).find((key) => pathname.startsWith(key))`. */
  function FindPrefixKey(entries: seq<Entry>, pathname: string): (r: Option<string>)
    ensures r.Some? ==> StartsWith(pathname, r.value) && IsKey(entries, r.value)
    ensures r.None? ==> forall i :: 0 <= i < |entries| ==> !StartsWith(pathname, entries[i].key)
    ensures entries != [] && StartsWith(pathname, entries[0].key) ==> r == Some(entries[0].key)
    ensures r.Some? ==> exists i :: FirstPrefix(entries, pathname, i) && entries[i].key == r.value
  {
    if entries == [] then None
    else if StartsWith(pathname, entries[0].key) then Some(entries[0].key)
    else
      var r := FindPrefixKey(entries[1..], pathname);
      assert r.Some? ==> IsKey(entries, r.value) by {
        if r.Some? {
          var i :| 0 <= i < |entries[1..]| && entries[1..][i].key == r.value;
          assert entries[i + 1].key == r.value;
        }
      }
      assert r.Some? ==> exists i :: FirstPrefix(entries, pathname, i) && entries[i].key == r.value by {
        if r.Some? {
          var i :| FirstPrefix(entries[1..], pathname, i) && entries[1..][i].key == r.value;
          forall j | 0 <= j < i + 1 ensures !StartsWith(pathname, entries[j].key) {
            if j > 0 { assert entries[j] == entries[1..][j - 1]; }
          }
          assert FirstPrefix(entries, pathname, i + 1);
        }
      }
      assert r.None? ==> forall i :: 0 <= i < |entries| ==> !StartsWith(pathname, entries[i].key) by {
        if r.None? {
          forall i | 0 <= i < |entries| ensures !StartsWith(pathname, entries[i].key) {
            if i > 0 { assert entries[i] == entries[1..][i - 1]; }
          }
        }
      }
      r
  }

  /** Every entry of `titleMap` has one of the five titles, and no key repeats. */
  lemma TitleMapShape()
    ensures forall i :: 0 <= i < |TitleMap| ==> TitleMap[i].title in Titles
    ensures forall i, j :: 0 <= i < j < |TitleMap| ==> TitleMap[i].key != TitleMap[j].key
  {
  }

  /** `activeTitle` for `pathname`. */
  function ActiveTitle(pathname: string): (t: string)
    ensures t in Titles
    ensures forall i :: 0 <= i < |TitleMap| && TitleMap[i].key == pathname ==> t == TitleMap[i].title
  {
    TitleMapShape();
    match Lookup(TitleMap, pathname)
    case Some(t) => t
    case None =>
      var key := match FindPrefixKey(TitleMap, pathname) case Some(k) => k case None => "/home";
      match Lookup(TitleMap, key)
      case Some(t) => t
      case None => "Dialer"
  }

  /** Each of the five known paths has its fixed title. */
  lemma KnownTitles()
    ensures ActiveTitle("/home") == "Dialer"
    ensures ActiveTitle("/home/call-logs") == "Call Logs"
    ensures ActiveTitle("/home/settings") == "Settings"
    ensures ActiveTitle("/home/kyc") == "KYC Management"
    ensures ActiveTitle("/home/admin/users") == "User Administration"
  {
    assert TitleMap[0].key == "/home" && TitleMap[1].key == "/home/call-logs";
    assert TitleMap[2].key == "/home/settings" && TitleMap[3].key == "/home/kyc";
    assert TitleMap[4].key == "/home/admin/users";
  }

  /** Because `/home` is the first key and every key starts with it, the prefix
      search only ever finds `/home`: a path that is not itself a key is
      titled "Dialer", `/home/kyc/x` and `/elsewhere` alike. */
  lemma {:induction false} OtherPathsAreDialer(pathname: string)
    requires !IsKey(TitleMap, pathname)
    ensures ActiveTitle(pathname) == "Dialer"
  {
    assert TitleMap[0] == Entry("/home", "Dialer");
    forall i | 0 <= i < |TitleMap|
      ensures StartsWith(pathname, TitleMap[i].key) ==> StartsWith(pathname, "/home")
    {
      assert TitleMap[i].key[..5] == "/home";
      if StartsWith(pathname, TitleMap[i].key) {
        assert pathname[..5] == pathname[..|TitleMap[i].key|][..5];
      }
    }
    var found := FindPrefixKey(TitleMap, pathname);
    assert found.Some? ==> found == Some("/home");
  }

  lemma KycSubPathIsDialer()
    ensures ActiveTitle("/home/kyc/x") == "Dialer"
  {
    var p := "/home/kyc/x";
    forall i | 0 <= i < |TitleMap| ensures TitleMap[i].key != p {
      assert |TitleMap[i].key| != |p| || TitleMap[i].key[6] != p[6] || TitleMap[i].key != p;
    }
    OtherPathsAreDialer(p);
  }
}
