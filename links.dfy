/**
 * `OxxFile.get_all_links`: the table of a file's hosting links, built as an
 * insertion-ordered dictionary. The dictionary is modelled as the sequence of
 * its (key, link) entries in insertion order.
 */
module OxxLinks {
  import opened Wrappers
  import opened OxxRecords
  import Decimal
  import Json
  import Seqs

  type Entries = seq<(string, string)>

  /** The key of the `n`-th drive link, counting from one: `f'drive_{n}'`. */
  function DriveKey(n: nat): (k: string)
    ensures |k| > 6 && k[..6] == "drive_" && k[6..] == Decimal.NatToString(n)
  {
    "drive_" + Decimal.NatToString(n)
  }

  /** The named hosts, in the order the table lists them. */
  const HostNames: seq<string> := ["viking", "pixeldrain", "gdtot", "hubcloud", "filepress"]

  /**
   * Each named host with its link; an absent link reads as empty, which is
   * falsy exactly as `None` is.
   */
  function HostTable(x: OxxFile): (t: Entries)
    ensures |t| == |HostNames| && forall h :: 0 <= h < |t| ==> t[h].0 == HostNames[h]
  {
    [("viking", OrEmpty(x.vikingLink)),
     ("pixeldrain", OrEmpty(x.pixeldrainLink)),
     ("gdtot", OrEmpty(x.gdtotLink)),
     ("hubcloud", x.hubcloudLink),
     ("filepress", x.filepressLink)]
  }

  predicate NonEmptyLink(e: (string, string))
  {
    e.1 != ""
  }

  /** The host entries that are kept: those whose link is truthy, in table order. */
  function HostLinks(x: OxxFile): Entries
  {
    Seqs.Filter(NonEmptyLink, HostTable(x))
  }

  /** One `drive_{i+1}` entry per drive link, in list order. */
  function DriveEntries(links: seq<DriveLink>): (r: Entries)
    ensures |r| == |links|
    ensures forall j :: 0 <= j < |r| ==> r[j] == (DriveKey(j + 1), links[j].webViewLink)
  {
    seq(|links|, j requires 0 <= j < |links| => (DriveKey(j + 1), links[j].webViewLink))
  }

  /** The whole table: the host entries, then the drive entries. */
  function AllLinks(x: OxxFile): Entries
  {
    HostLinks(x) + DriveEntries(x.driveLinks)
  }

  /** `get_all_links`: conditional inserts for the hosts, then a loop over the drive links. */
  method GetAllLinks(x: OxxFile) returns (links: Entries)
    ensures links == AllLinks(x)
    ensures DistinctKeys(links)
    ensures Lookup(links, "viking").Some? <==> HasVikingLink(x)
  {
    links := [];
    if Truthy(x.vikingLink) {
      links := links + [("viking", x.vikingLink.value)];
    }
    assert links == Present("viking", OrEmpty(x.vikingLink));
    if Truthy(x.pixeldrainLink) {
      links := links + [("pixeldrain", x.pixeldrainLink.value)];
    }
    assert links == Present("viking", OrEmpty(x.vikingLink))
                  + Present("pixeldrain", OrEmpty(x.pixeldrainLink));
    if Truthy(x.gdtotLink) {
      links := links + [("gdtot", x.gdtotLink.value)];
    }
    ghost var three := Present("viking", OrEmpty(x.vikingLink))
                     + Present("pixeldrain", OrEmpty(x.pixeldrainLink))
                     + Present("gdtot", OrEmpty(x.gdtotLink));
    assert links == three;
    if x.hubcloudLink != "" {
      links := links + [("hubcloud", x.hubcloudLink)];
    }
    assert links == three + Present("hubcloud", x.hubcloudLink);
    if x.filepressLink != "" {
      links := links + [("filepress", x.filepressLink)];
    }
    assert links == three + Present("hubcloud", x.hubcloudLink) + Present("filepress", x.filepressLink);
    HostLinksUnfold(x);

    var i := 0;
    while i < |x.driveLinks|
      invariant 0 <= i <= |x.driveLinks|
      invariant links == HostLinks(x) + DriveEntries(x.driveLinks[..i])
    {
      assert DriveEntries(x.driveLinks[..i + 1]) == DriveEntries(x.driveLinks[..i]) + [(DriveKey(i + 1), x.driveLinks[i].webViewLink)];
      links := links + [(DriveKey(i + 1), x.driveLinks[i].webViewLink)];
      i := i + 1;
    }
    assert x.driveLinks[..i] == x.driveLinks;
    AllLinksDistinctKeys(x);
    LookupHosts(x);
  }

  function Present(key: string, link: string): Entries
  {
    if link != "" then [(key, link)] else []
  }

  /** The filtered table is the five conditional inserts, in order. */
  lemma HostLinksUnfold(x: OxxFile)
    ensures HostLinks(x) == Present("viking", OrEmpty(x.vikingLink))
                          + Present("pixeldrain", OrEmpty(x.pixeldrainLink))
                          + Present("gdtot", OrEmpty(x.gdtotLink))
                          + Present("hubcloud", x.hubcloudLink)
                          + Present("filepress", x.filepressLink)
  {
    var t := HostTable(x);
    var p := NonEmptyLink;
    forall h | 0 <= h < 5 ensures Seqs.Filter(p, [t[h]]) == Present(t[h].0, t[h].1) {
      Seqs.FilterSingleton(p, t[h]);
    }
    assert t == [t[0]] + [t[1]] + [t[2]] + [t[3]] + [t[4]];
    Seqs.FilterConcat(p, [t[0]] + [t[1]] + [t[2]] + [t[3]], [t[4]]);
    Seqs.FilterConcat(p, [t[0]] + [t[1]] + [t[2]], [t[3]]);
    Seqs.FilterConcat(p, [t[0]] + [t[1]], [t[2]]);
    Seqs.FilterConcat(p, [t[0]], [t[1]]);
  }

  // ------------------------------------------------------ reading the table

  /** `links.get(key)`: the link stored under `key`, looked up in insertion order. */
  function Lookup(links: Entries, key: string): Option<string>
    decreases |links|
  {
    if links == [] then None
    else if links[0].0 == key then Some(links[0].1)
    else Lookup(links[1..], key)
  }

  ghost predicate DistinctKeys(links: Entries)
  {
    forall p, q :: 0 <= p < q < |links| ==> links[p].0 != links[q].0
  }

  lemma {:induction false} LookupAt(links: Entries, p: nat)
    requires DistinctKeys(links) && p < |links|
    ensures Lookup(links, links[p].0) == Some(links[p].1)
    decreases p
  {
    if p > 0 {
      assert DistinctKeys(links[1..]);
      LookupAt(links[1..], p - 1);
    }
  }

  lemma {:induction false} LookupMissing(links: Entries, key: string)
    requires forall p :: 0 <= p < |links| ==> links[p].0 != key
    ensures Lookup(links, key) == None
    decreases |links|
  {
    if links != [] {
      LookupMissing(links[1..], key);
    }
  }

  /**
   * The position a key takes in the table's order: the hosts first, in their
   * fixed order, then `drive_1`, `drive_2`, ... Any other key, which the table
   * never holds (`AllLinksKeys`), ranks 5, after the hosts and before `drive_1`.
   */
  function KeyRank(key: string): nat
  {
    if key == "viking" then 0
    else if key == "pixeldrain" then 1
    else if key == "gdtot" then 2
    else if key == "hubcloud" then 3
    else if key == "filepress" then 4
    else if |key| > 6 && key[..6] == "drive_" then 5 + Decimal.ParseNat(key[6..])
    else 5
  }

  lemma HostRank(h: nat)
    requires h < |HostNames|
    ensures KeyRank(HostNames[h]) == h
  {
  }

  lemma DriveRank(n: nat)
    ensures KeyRank(DriveKey(n)) == 5 + n
  {
    var k := DriveKey(n);
    assert k[0] == "drive_"[0] == 'd';
    assert forall h :: 0 <= h < |HostNames| ==> HostNames[h][0] != 'd';
    Decimal.ParseNatToString(n);
  }

  /** The rank of the key at each position of the table, from where the entry came from. */
  lemma {:induction false} RankAt(x: OxxFile, idx: seq<nat>, p: nat)
    requires Seqs.SubsequenceAt(HostLinks(x), HostTable(x), idx)
    requires p < |AllLinks(x)|
    ensures p < |HostLinks(x)| ==> KeyRank(AllLinks(x)[p].0) == idx[p] < 5
    ensures p >= |HostLinks(x)| ==> KeyRank(AllLinks(x)[p].0) == 6 + (p - |HostLinks(x)|)
  {
    var hosts := HostLinks(x);
    if p < |hosts| {
      assert AllLinks(x)[p] == hosts[p] == HostTable(x)[idx[p]];
      HostRank(idx[p]);
    } else {
      var j := p - |hosts|;
      assert AllLinks(x)[p] == DriveEntries(x.driveLinks)[j];
      DriveRank(j + 1);
    }
  }

  /** Entries appear as viking, pixeldrain, gdtot, hubcloud, filepress, then drive_1 to drive_n. */
  lemma AllLinksOrdered(x: OxxFile, p: nat, q: nat)
    requires p < q < |AllLinks(x)|
    ensures KeyRank(AllLinks(x)[p].0) < KeyRank(AllLinks(x)[q].0)
  {
    var idx := Seqs.FilterPositions(NonEmptyLink, HostTable(x));
    RankAt(x, idx, p);
    RankAt(x, idx, q);
  }

  /** No key is inserted twice, so the table is a dictionary with one entry per key. */
  lemma AllLinksDistinctKeys(x: OxxFile)
    ensures DistinctKeys(AllLinks(x))
  {
    forall p, q | 0 <= p < q < |AllLinks(x)| ensures AllLinks(x)[p].0 != AllLinks(x)[q].0 {
      AllLinksOrdered(x, p, q);
    }
  }

  /** A named host has an entry exactly when its link is truthy, and the entry is that link. */
  lemma LookupHost(x: OxxFile, h: nat)
    requires h < |HostNames|
    ensures Lookup(AllLinks(x), HostNames[h])
         == if HostTable(x)[h].1 != "" then Some(HostTable(x)[h].1) else None
  {
    var links := AllLinks(x);
    var t := HostTable(x);
    var idx := Seqs.FilterPositions(NonEmptyLink, t);
    HostRank(h);
    if t[h].1 != "" {
      assert NonEmptyLink(t[h]);
      var r :| 0 <= r < |idx| && idx[r] == h;
      assert links[r] == t[h];
      AllLinksDistinctKeys(x);
      LookupAt(links, r);
    } else {
      forall p | 0 <= p < |links| ensures links[p].0 != HostNames[h] {
        RankAt(x, idx, p);
        if p < |HostLinks(x)| {
          assert !NonEmptyLink(t[h]);
        }
      }
      LookupMissing(links, HostNames[h]);
    }
  }

  /** There is one `drive_n` entry for each `n` from 1 to the number of drive links, holding its web view link. */
  lemma LookupDrive(x: OxxFile, n: nat)
    ensures Lookup(AllLinks(x), DriveKey(n))
         == if 1 <= n <= |x.driveLinks| then Some(x.driveLinks[n - 1].webViewLink) else None
  {
    var links := AllLinks(x);
    var hosts := HostLinks(x);
    var idx := Seqs.FilterPositions(NonEmptyLink, HostTable(x));
    DriveRank(n);
    if 1 <= n <= |x.driveLinks| {
      var p := |hosts| + n - 1;
      assert links[p] == DriveEntries(x.driveLinks)[n - 1];
      AllLinksDistinctKeys(x);
      LookupAt(links, p);
    } else {
      forall p | 0 <= p < |links| ensures links[p].0 != DriveKey(n) {
        RankAt(x, idx, p);
      }
      LookupMissing(links, DriveKey(n));
    }
  }

  /** Every key of the table is a named host or `drive_n` for a drive link `n`. */
  lemma AllLinksKeys(x: OxxFile, p: nat)
    requires p < |AllLinks(x)|
    ensures AllLinks(x)[p].0 in HostNames
         || exists n :: 1 <= n <= |x.driveLinks| && AllLinks(x)[p].0 == DriveKey(n)
  {
    var hosts := HostLinks(x);
    if p < |hosts| {
      var idx := Seqs.FilterPositions(NonEmptyLink, HostTable(x));
      assert AllLinks(x)[p] == HostTable(x)[idx[p]];
    } else {
      var j := p - |hosts|;
      assert AllLinks(x)[p] == DriveEntries(x.driveLinks)[j];
    }
  }

  /** The five named hosts, stated in the file's own fields. */
  lemma LookupHosts(x: OxxFile)
    ensures Lookup(AllLinks(x), "viking") == if HasVikingLink(x) then Some(x.vikingLink.value) else None
    ensures Lookup(AllLinks(x), "pixeldrain") == if Truthy(x.pixeldrainLink) then Some(x.pixeldrainLink.value) else None
    ensures Lookup(AllLinks(x), "gdtot") == if Truthy(x.gdtotLink) then Some(x.gdtotLink.value) else None
    ensures Lookup(AllLinks(x), "hubcloud") == if x.hubcloudLink != "" then Some(x.hubcloudLink) else None
    ensures Lookup(AllLinks(x), "filepress") == if x.filepressLink != "" then Some(x.filepressLink) else None
  {
    LookupHost(x, 0);
    LookupHost(x, 1);
    LookupHost(x, 2);
    LookupHost(x, 3);
    LookupHost(x, 4);
  }

  /** `get_viking_info` and `get_all_links` agree on whether, and which, viking link there is. */
  lemma VikingInfoAgreesWithLinks(x: OxxFile)
    ensures Json.GetBool(VikingInfo(x), "has_viking_link", false) <==> Lookup(AllLinks(x), "viking").Some?
    ensures Lookup(AllLinks(x), "viking").Some? ==> Json.GetOptStr(VikingInfo(x), "viking_link") == Lookup(AllLinks(x), "viking")
  {
    LookupHosts(x);
  }
}
