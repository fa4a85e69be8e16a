/**
 * The publish manifest: the package.json written at
 * `<jscomp>/<PLAYGROUND>/package.json`, projected from the repository's own
 * package.json.
 */
module Manifest {
  import opened Wrappers

  /** A JSON value; numbers are kept as their literal text. */
  datatype Json =
    | Null
    | Bool(b: bool)
    | Number(text: string)
    | Str(s: string)
    | Array(items: seq<Json>)
    | Object(members: Members)

  /** The members of a JSON object, in the order they are written. */
  type Members = seq<(string, Json)>

  const PublishName := "rescript-compiler"
  const PublishMain := "exports.js"

  /** The fields copied unchanged from the repository's manifest, in output order. */
  const CopiedKeys: seq<string> :=
    ["version", "license", "description", "repository", "author", "maintainers", "bugs", "homepage"]

  /** Every field the publish manifest can hold, in output order. */
  const PublishKeys: seq<string> := ["name"] + CopiedKeys + ["main"]

  function Keys(m: Members): (ks: seq<string>)
    ensures |ks| == |m|
    ensures forall i :: 0 <= i < |m| ==> ks[i] == m[i].0
  {
    if m == [] then [] else [m[0].0] + Keys(m[1..])
  }

  /** The value of the first member named `k`. */
  function Lookup(m: Members, k: string): (r: Option<Json>)
    ensures r.None? <==> k !in Keys(m)
  {
    if m == [] then None
    else if m[0].0 == k then Some(m[0].1)
    else Lookup(m[1..], k)
  }

  /** A property read on the parsed manifest: absent keys read as undefined. */
  function Get(master: map<string, Json>, k: string): Option<Json> {
    if k in master then Some(master[k]) else None
  }

  predicate Distinct(ks: seq<string>) {
    forall i, j :: 0 <= i < j < |ks| ==> ks[i] != ks[j]
  }

  /**
   * The members `{k: master[k]}` for the keys `ks`, in order. JSON.stringify
   * leaves out a member whose value is undefined, so a key the master lacks
   * produces no member.
   */
  function CopyFields(master: map<string, Json>, ks: seq<string>): (m: Members)
    ensures forall i :: 0 <= i < |m| ==> m[i].0 in ks && m[i].0 in master && m[i].1 == master[m[i].0]
  {
    if ks == [] then []
    else (if ks[0] in master then [(ks[0], master[ks[0]])] else []) + CopyFields(master, ks[1..])
  }

  /**
   * The publish manifest built from the parsed master manifest: the fixed
   * name first, the fixed entry point last, and in between only copied
   * fields with the master's values.
   */
  function PublishManifest(master: map<string, Json>): (m: Members)
    ensures |m| >= 2
    ensures m[0] == ("name", Str(PublishName)) && m[|m| - 1] == ("main", Str(PublishMain))
    ensures forall i :: 0 < i < |m| - 1 ==>
      m[i].0 in CopiedKeys && m[i].0 in master && m[i].1 == master[m[i].0]
  {
    [("name", Str(PublishName))] + CopyFields(master, CopiedKeys) + [("main", Str(PublishMain))]
  }

  lemma {:induction false} LookupAppend(a: Members, b: Members, k: string)
    ensures Lookup(a + b, k) == if k in Keys(a) then Lookup(a, k) else Lookup(b, k)
  {
    if a != [] {
      assert (a + b)[0] == a[0];
      assert (a + b)[1..] == a[1..] + b;
      LookupAppend(a[1..], b, k);
    } else {
      assert a + b == b;
    }
  }

  lemma {:induction false} LookupCopyFields(master: map<string, Json>, ks: seq<string>, k: string)
    ensures Lookup(CopyFields(master, ks), k) == if k in ks then Get(master, k) else None
  {
    if ks != [] {
      var head: Members := if ks[0] in master then [(ks[0], master[ks[0]])] else [];
      LookupAppend(head, CopyFields(master, ks[1..]), k);
      LookupCopyFields(master, ks[1..], k);
      assert ks == [ks[0]] + ks[1..];
    }
  }

  lemma {:induction false} CopyFieldsDistinct(master: map<string, Json>, ks: seq<string>)
    requires Distinct(ks)
    ensures Distinct(Keys(CopyFields(master, ks)))
  {
    if ks != [] {
      assert Distinct(ks[1..]);
      CopyFieldsDistinct(master, ks[1..]);
      var rest := CopyFields(master, ks[1..]);
      assert ks[0] !in Keys(rest) by {
        forall i | 0 <= i < |rest| ensures Keys(rest)[i] != ks[0] {
          assert rest[i].0 in ks[1..];
        }
      }
      var head: Members := if ks[0] in master then [(ks[0], master[ks[0]])] else [];
      assert Keys(head + rest) == Keys(head) + Keys(rest);
    }
  }

  /** What reading any field of the publish manifest gives. */
  lemma LookupPublish(master: map<string, Json>, k: string)
    ensures Lookup(PublishManifest(master), k)
         == if k == "name" then Some(Str(PublishName))
            else if k in CopiedKeys then Get(master, k)
            else if k == "main" then Some(Str(PublishMain))
            else None
  {
    var copied := CopyFields(master, CopiedKeys);
    CopiedKeysDistinct();
    LookupAppend([("name", Str(PublishName))] + copied, [("main", Str(PublishMain))], k);
    LookupAppend([("name", Str(PublishName))], copied, k);
    LookupCopyFields(master, CopiedKeys, k);
  }

  /** `name` and `main` are fixed, whatever the master manifest says. */
  lemma PublishFixedFields(master: map<string, Json>)
    ensures Lookup(PublishManifest(master), "name") == Some(Str(PublishName))
    ensures Lookup(PublishManifest(master), "main") == Some(Str(PublishMain))
  {
    CopiedKeysDistinct();
    LookupPublish(master, "name");
    LookupPublish(master, "main");
  }

  /** The eight copied fields carry the master's values unchanged, or are absent when it lacks them. */
  lemma PublishCopiesFields(master: map<string, Json>, k: string)
    requires k in CopiedKeys
    ensures Lookup(PublishManifest(master), k) == Get(master, k)
  {
    CopiedKeysDistinct();
    LookupPublish(master, k);
  }

  lemma KeysAppend(a: Members, b: Members)
    ensures Keys(a + b) == Keys(a) + Keys(b)
  {
  }

  lemma PublishKeysShape(master: map<string, Json>)
    ensures Keys(PublishManifest(master)) == ["name"] + Keys(CopyFields(master, CopiedKeys)) + ["main"]
  {
    var copied := CopyFields(master, CopiedKeys);
    KeysAppend([("name", Str(PublishName))] + copied, [("main", Str(PublishMain))]);
    KeysAppend([("name", Str(PublishName))], copied);
  }

  /** No field outside the ten appears. */
  lemma PublishKeysOnly(master: map<string, Json>)
    ensures forall i :: 0 <= i < |PublishManifest(master)| ==> PublishManifest(master)[i].0 in PublishKeys
  {
    var copied := CopyFields(master, CopiedKeys);
    var m := PublishManifest(master);
    PublishKeysShape(master);
    var ks := Keys(m);
    forall i | 0 <= i < |m| ensures m[i].0 in PublishKeys {
      assert m[i].0 == ks[i];
      if 0 < i < |m| - 1 {
        assert ks[i] == copied[i - 1].0;
      }
    }
  }

  /** The eight copied keys differ already in their first letter. */
  lemma CopiedKeysDistinct()
    ensures Distinct(CopiedKeys)
    ensures "name" !in CopiedKeys && "main" !in CopiedKeys
  {
    var initials := "vldrambh";
    assert forall i :: 0 <= i < |CopiedKeys| ==> |CopiedKeys[i]| > 0 && CopiedKeys[i][0] == initials[i];
  }

  lemma DistinctBetween(x: string, ks: seq<string>, y: string)
    requires Distinct(ks) && x !in ks && y !in ks && x != y
    ensures Distinct([x] + ks + [y])
  {
    var all := [x] + ks + [y];
    forall i, j | 0 <= i < j < |all| ensures all[i] != all[j] {
      if 0 < i && j < |all| - 1 {
        assert all[i] == ks[i - 1] && all[j] == ks[j - 1];
      } else if i == 0 && j < |all| - 1 {
        assert all[j] == ks[j - 1];
      } else if 0 < i {
        assert all[i] == ks[i - 1];
      }
    }
  }

  /** No field appears twice, so the written object is unambiguous. */
  lemma PublishKeysDistinct(master: map<string, Json>)
    ensures Distinct(Keys(PublishManifest(master)))
  {
    var copied := CopyFields(master, CopiedKeys);
    CopiedKeysDistinct();
    CopyFieldsDistinct(master, CopiedKeys);
    PublishKeysShape(master);
    var ks := Keys(copied);
    assert "name" !in ks && "main" !in ks by {
      forall i | 0 <= i < |ks| ensures ks[i] != "name" && ks[i] != "main" {
        assert copied[i].0 in CopiedKeys;
      }
    }
    DistinctBetween("name", ks, "main");
  }

  /** The output depends on the master's eight copied fields only. */
  lemma {:induction false} PublishIgnoresOtherFields(m1: map<string, Json>, m2: map<string, Json>)
    requires forall k :: k in CopiedKeys ==> Get(m1, k) == Get(m2, k)
    ensures PublishManifest(m1) == PublishManifest(m2)
  {
    CopyFieldsAgree(m1, m2, CopiedKeys);
  }

  lemma {:induction false} CopyFieldsAgree(m1: map<string, Json>, m2: map<string, Json>, ks: seq<string>)
    requires forall k :: k in ks ==> Get(m1, k) == Get(m2, k)
    ensures CopyFields(m1, ks) == CopyFields(m2, ks)
  {
    if ks != [] {
      assert Get(m1, ks[0]) == Get(m2, ks[0]);
      CopyFieldsAgree(m1, m2, ks[1..]);
    }
  }

  /** A master manifest that has all eight fields yields all ten, in the fixed order. */
  lemma PublishComplete(master: map<string, Json>)
    requires forall k :: k in CopiedKeys ==> k in master
    ensures Keys(PublishManifest(master)) == PublishKeys
  {
    CopyFieldsComplete(master, CopiedKeys);
    PublishKeysShape(master);
  }

  lemma {:induction false} CopyFieldsComplete(master: map<string, Json>, ks: seq<string>)
    requires forall k :: k in ks ==> k in master
    ensures Keys(CopyFields(master, ks)) == ks
  {
    if ks != [] {
      CopyFieldsComplete(master, ks[1..]);
      assert Keys([(ks[0], master[ks[0]])] + CopyFields(master, ks[1..])) == [ks[0]] + Keys(CopyFields(master, ks[1..]));
    }
  }
}
