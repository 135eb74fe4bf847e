/** The offline-content panel: the six content packs, the packs being
    downloaded, the simulated download (a timer that adds a random amount to a
    running total every half second), deleting a downloaded pack, and the
    totals shown over the downloaded packs. */
module Offline {
  import opened Types
  import opened Text

  /** A content pack; `progress` is the download percentage shown on its card. */
  datatype Pack = Pack(
    id: string,
    name: string,
    size: string,
    lessons: nat,
    language: Language,
    isDownloaded: bool,
    progress: real)

  const InitialPacks: seq<Pack> := [
    Pack("pack-1", "Basic Reading Skills", "15 MB", 12, En, true, 100.0),
    Pack("pack-2", "Elementary Math", "22 MB", 18, En, false, 0.0),
    Pack("pack-3", "Health & Nutrition", "18 MB", 15, En, true, 100.0),
    Pack("pack-4", "Spanish Reading Pack", "20 MB", 14, Es, false, 0.0),
    Pack("pack-5", "Advanced Science", "35 MB", 25, En, false, 0.0),
    Pack("pack-6", "French Language Basics", "28 MB", 20, Fr, false, 0.0)
  ]

  /** One started download: the pack it fills, the total its own timer has
      accumulated, and whether that timer still fires. */
  datatype Transfer = Transfer(packId: string, total: real, running: bool)

  /** The panel's state. `online` mirrors the browser's connectivity flag,
      which arrives as an event. */
  datatype OfflineState = OfflineState(
    online: bool,
    downloading: set<string>,
    packs: seq<Pack>,
    transfers: seq<Transfer>)

  function Init(online: bool): OfflineState
  {
    OfflineState(online, {}, InitialPacks, [])
  }

  /** Every card's percentage is between 0 and 100, every id marked as
      downloading has a timer still running for it, and a running timer's
      total has not yet reached 100. */
  predicate Valid(st: OfflineState)
  {
    && (forall i | 0 <= i < |st.packs| :: 0.0 <= st.packs[i].progress <= 100.0)
    && (forall id | id in st.downloading :: exists k | 0 <= k < |st.transfers| ::
          st.transfers[k].running && st.transfers[k].packId == id)
    && (forall k | 0 <= k < |st.transfers| ::
          0.0 <= st.transfers[k].total && (st.transfers[k].running ==> st.transfers[k].total < 100.0))
  }

  lemma InitValid(online: bool)
    ensures Valid(Init(online))
    ensures Init(online).downloading == {} && Init(online).packs == InitialPacks
  {
  }

  /** The pack list with the card of `id` showing `progress`. */
  function WithProgress(packs: seq<Pack>, id: string, progress: real): seq<Pack>
  {
    seq(|packs|, i requires 0 <= i < |packs| =>
      if packs[i].id == id then packs[i].(progress := progress) else packs[i])
  }

  /** The pack list with `id` marked downloaded or not, at `progress`. */
  function WithStatus(packs: seq<Pack>, id: string, downloaded: bool, progress: real): seq<Pack>
  {
    seq(|packs|, i requires 0 <= i < |packs| =>
      if packs[i].id == id then packs[i].(isDownloaded := downloaded, progress := progress) else packs[i])
  }

  function SetOnline(st: OfflineState, online: bool): (r: OfflineState)
    ensures Valid(st) ==> Valid(r)
    ensures r.online == online && r.packs == st.packs && r.downloading == st.downloading
  {
    st.(online := online)
  }

  /** Starting a download does nothing while offline. Online, it marks the
      pack as downloading and starts a timer at 0; the pack cards are not
      touched until the timer fires. */
  function StartDownload(st: OfflineState, id: string): (r: OfflineState)
    ensures !st.online ==> r == st
    ensures st.online ==>
      && r.downloading == st.downloading + {id}
      && r.packs == st.packs
      && r.transfers == st.transfers + [Transfer(id, 0.0, true)]
    ensures Valid(st) ==> Valid(r)
  {
    if !st.online then st
    else
      var r := st.(downloading := st.downloading + {id},
                   transfers := st.transfers + [Transfer(id, 0.0, true)]);
      assert forall k | 0 <= k < |st.transfers| :: r.transfers[k] == st.transfers[k];
      assert Valid(st) ==> Valid(r) by {
        if Valid(st) {
          forall x | x in r.downloading
            ensures exists j | 0 <= j < |r.transfers| :: r.transfers[j].running && r.transfers[j].packId == x
          {
            if x == id {
              assert r.transfers[|st.transfers|].running && r.transfers[|st.transfers|].packId == x;
            } else {
              var j :| 0 <= j < |st.transfers| && st.transfers[j].running && st.transfers[j].packId == x;
              assert r.transfers[j].running && r.transfers[j].packId == x;
            }
          }
        }
      }
      r
  }

  /** `Math.min(progress, 100)`. */
  function Cap(x: real): (r: real)
    ensures r <= 100.0 && r <= x && (r == x || r == 100.0)
  {
    if x < 100.0 then x else 100.0
  }

  /** Timer `k` fires with a random draw in [0, 15). A stopped timer does not
      fire. Otherwise the draw is added to the timer's total and the pack's
      card shows the total capped at 100; once the total reaches 100 the pack
      is marked downloaded at exactly 100, leaves the downloading set and the
      timer stops. No other pack changes. */
  function Tick(st: OfflineState, k: nat, draw: real): (r: OfflineState)
    requires k < |st.transfers| && 0.0 <= draw < 15.0
    ensures !st.transfers[k].running ==> r == st
    ensures st.transfers[k].running ==>
      var t := st.transfers[k];
      var total := t.total + draw;
      && |r.packs| == |st.packs|
      && |r.transfers| == |st.transfers|
      && r.online == st.online
      && (forall i | 0 <= i < |st.packs| && st.packs[i].id != t.packId :: r.packs[i] == st.packs[i])
      && (forall j | 0 <= j < |st.transfers| && j != k :: r.transfers[j] == st.transfers[j])
      && r.transfers[k].total == total
      && (total < 100.0 ==>
            && r.downloading == st.downloading
            && r.transfers[k].running
            && forall i | 0 <= i < |st.packs| && st.packs[i].id == t.packId ::
                 r.packs[i] == st.packs[i].(progress := total))
      && (total >= 100.0 ==>
            && r.downloading == st.downloading - {t.packId}
            && !r.transfers[k].running
            && forall i | 0 <= i < |st.packs| && st.packs[i].id == t.packId ::
                 r.packs[i] == st.packs[i].(isDownloaded := true, progress := 100.0))
    ensures Valid(st) ==> Valid(r)
  {
    var t := st.transfers[k];
    if !t.running then st
    else
      var total := t.total + draw;
      var shown := WithProgress(st.packs, t.packId, Cap(total));
      if total < 100.0 then
        var r := st.(packs := shown, transfers := st.transfers[k := Transfer(t.packId, total, true)]);
        assert Valid(st) ==> Valid(r) by {
          if Valid(st) {
            forall id | id in r.downloading
              ensures exists j | 0 <= j < |r.transfers| :: r.transfers[j].running && r.transfers[j].packId == id
            {
              var j :| 0 <= j < |st.transfers| && st.transfers[j].running && st.transfers[j].packId == id;
              assert r.transfers[j].running && r.transfers[j].packId == id;
            }
          }
        }
        r
      else
        var r := st.(packs := WithStatus(shown, t.packId, true, 100.0),
                     downloading := st.downloading - {t.packId},
                     transfers := st.transfers[k := Transfer(t.packId, total, false)]);
        assert Valid(st) ==> Valid(r) by {
          if Valid(st) {
            forall id | id in r.downloading
              ensures exists j | 0 <= j < |r.transfers| :: r.transfers[j].running && r.transfers[j].packId == id
            {
              var j :| 0 <= j < |st.transfers| && st.transfers[j].running && st.transfers[j].packId == id;
              assert j != k;
              assert r.transfers[j].running && r.transfers[j].packId == id;
            }
          }
        }
        r
  }

  /** Deleting marks only the packs with that id as not downloaded at 0. */
  function Delete(st: OfflineState, id: string): (r: OfflineState)
    ensures |r.packs| == |st.packs|
    ensures forall i | 0 <= i < |st.packs| ::
      r.packs[i] == if st.packs[i].id == id
                    then st.packs[i].(isDownloaded := false, progress := 0.0)
                    else st.packs[i]
    ensures r.downloading == st.downloading && r.transfers == st.transfers && r.online == st.online
    ensures Valid(st) ==> Valid(r)
  {
    st.(packs := WithStatus(st.packs, id, false, 0.0))
  }

  /** A timer that has stopped never changes anything again. */
  lemma StoppedTimerIsInert(st: OfflineState, k: nat, draw: real)
    requires k < |st.transfers| && 0.0 <= draw < 15.0
    requires Valid(st)
    ensures var r := Tick(st, k, draw);
      !r.transfers[k].running ==> forall d | 0.0 <= d < 15.0 :: Tick(r, k, d) == r
  {
  }

  /** The downloaded packs, in list order. */
  function Downloaded(packs: seq<Pack>): (r: seq<Pack>)
    ensures forall i | 0 <= i < |r| :: r[i].isDownloaded
  {
    if packs == [] then []
    else if packs[0].isDownloaded then [packs[0]] + Downloaded(packs[1..])
    else Downloaded(packs[1..])
  }

  /** The packs offered for download, in list order. */
  function Available(packs: seq<Pack>): (r: seq<Pack>)
    ensures forall i | 0 <= i < |r| :: !r[i].isDownloaded
  {
    if packs == [] then []
    else if !packs[0].isDownloaded then [packs[0]] + Available(packs[1..])
    else Available(packs[1..])
  }

  /** A pack is listed as downloaded exactly when it is in the list and
      downloaded, and offered exactly when it is in the list and not. */
  lemma {:induction false} Membership(packs: seq<Pack>, p: Pack)
    ensures p in Downloaded(packs) <==> p in packs && p.isDownloaded
    ensures p in Available(packs) <==> p in packs && !p.isDownloaded
  {
    if packs != [] {
      Membership(packs[1..], p);
      assert packs == [packs[0]] + packs[1..];
    }
  }

  /** The two lists split the pack list: together they hold every pack
      exactly as often as the list does. */
  lemma {:induction false} Partition(packs: seq<Pack>)
    ensures multiset(Downloaded(packs)) + multiset(Available(packs)) == multiset(packs)
    ensures |Downloaded(packs)| + |Available(packs)| == |packs|
  {
    if packs != [] {
      Partition(packs[1..]);
      assert packs == [packs[0]] + packs[1..];
    }
  }

  /** Lessons available offline: the sum of `lessons` over downloaded packs. */
  function DownloadedLessons(packs: seq<Pack>): nat
  {
    if packs == [] then 0
    else (if packs[0].isDownloaded then packs[0].lessons else 0) + DownloadedLessons(packs[1..])
  }

  /** The leading integer of each downloaded pack's size label, in order;
      `None` where a label has none. */
  function DownloadedSizes(packs: seq<Pack>): (r: seq<Option<int>>)
    ensures |r| == |Downloaded(packs)|
    ensures forall i | 0 <= i < |r| :: r[i] == ParseLeadingInt(Downloaded(packs)[i].size)
  {
    var d := Downloaded(packs);
    seq(|d|, i requires 0 <= i < |d| => ParseLeadingInt(d[i].size))
  }

  /** Sum of a list of numbers in which any missing value poisons the sum,
      as adding `NaN` does. */
  function SumSizes(xs: seq<Option<int>>): (r: Option<int>)
    ensures r.None? <==> exists i | 0 <= i < |xs| :: xs[i].None?
  {
    if xs == [] then Some(0)
    else
      var rest := SumSizes(xs[1..]);
      assert forall i | 1 <= i < |xs| :: xs[i] == xs[1..][i - 1];
      if xs[0].Some? && rest.Some? then Some(xs[0].value + rest.value) else None
  }

  /** Storage used: the downloaded packs' sizes summed in list order; a label
      without a leading integer makes the total not a number (`None`). */
  function StorageUsed(packs: seq<Pack>): (r: Option<int>)
    ensures r.None? <==> exists i | 0 <= i < |Downloaded(packs)| ::
      ParseLeadingInt(Downloaded(packs)[i].size).None?
  {
    SumSizes(DownloadedSizes(packs))
  }

  predicate UniqueIds(packs: seq<Pack>)
  {
    forall i, j | 0 <= i < j < |packs| :: packs[i].id != packs[j].id
  }

  /** With unique ids, setting pack `i`'s status changes the lesson total by
      exactly that pack's lessons, in the direction of the change. */
  lemma {:induction false} LessonsAfterStatus(packs: seq<Pack>, i: nat, downloaded: bool, progress: real)
    requires i < |packs| && UniqueIds(packs)
    ensures DownloadedLessons(WithStatus(packs, packs[i].id, downloaded, progress))
      + (if packs[i].isDownloaded then packs[i].lessons else 0)
      == DownloadedLessons(packs) + (if downloaded then packs[i].lessons else 0)
  {
    var id := packs[i].id;
    var r := WithStatus(packs, id, downloaded, progress);
    var tail := packs[1..];
    assert UniqueIds(tail) by {
      forall a, b | 0 <= a < b < |tail| ensures tail[a].id != tail[b].id {
        assert tail[a] == packs[a + 1] && tail[b] == packs[b + 1];
      }
    }
    assert r[1..] == WithStatus(tail, id, downloaded, progress);
    if i == 0 {
      assert forall j | 0 <= j < |tail| :: tail[j].id != id by {
        forall j | 0 <= j < |tail| ensures tail[j].id != id {
          assert tail[j] == packs[j + 1];
        }
      }
      UnchangedWithoutId(tail, id, downloaded, progress);
    } else {
      assert packs[0].id != id;
      LessonsAfterStatus(tail, i - 1, downloaded, progress);
    }
  }

  lemma UnchangedWithoutId(packs: seq<Pack>, id: string, downloaded: bool, progress: real)
    requires forall j | 0 <= j < |packs| :: packs[j].id != id
    ensures WithStatus(packs, id, downloaded, progress) == packs
  {
  }

  /** Deleting a downloaded pack takes its lessons off the offline total;
      a finished download adds them. */
  lemma DeleteAndFinishTotals(st: OfflineState, i: nat)
    requires i < |st.packs| && UniqueIds(st.packs)
    ensures st.packs[i].isDownloaded ==>
      DownloadedLessons(Delete(st, st.packs[i].id).packs) + st.packs[i].lessons == DownloadedLessons(st.packs)
    ensures !st.packs[i].isDownloaded ==>
      DownloadedLessons(WithStatus(st.packs, st.packs[i].id, true, 100.0))
        == DownloadedLessons(st.packs) + st.packs[i].lessons
  {
    LessonsAfterStatus(st.packs, i, false, 0.0);
    LessonsAfterStatus(st.packs, i, true, 100.0);
  }

  /** The panel as first shown: packs 1 and 3 are downloaded, holding 27
      lessons, four packs are offered, and no id repeats. */
  lemma InitialLists(packs: seq<Pack>)
    requires packs == InitialPacks
    ensures Downloaded(packs) == [packs[0], packs[2]]
    ensures |Available(packs)| == 4
    ensures DownloadedLessons(packs) == 27
    ensures UniqueIds(packs)
  {
    InitialDownloaded(packs);
    Partition(packs);
    InitialLessons(packs);
    InitialUnique(packs);
  }

  lemma InitialDownloaded(packs: seq<Pack>)
    requires packs == InitialPacks
    ensures Downloaded(packs) == [packs[0], packs[2]]
  {
    assert packs[5..][1..] == [];
    assert Downloaded(packs[5..]) == [];
    assert packs[4..][1..] == packs[5..];
    assert Downloaded(packs[4..]) == [];
    assert packs[3..][1..] == packs[4..];
    assert Downloaded(packs[3..]) == [];
    assert packs[2..][1..] == packs[3..];
    assert Downloaded(packs[2..]) == [packs[2]];
    assert packs[1..][1..] == packs[2..];
    assert Downloaded(packs[1..]) == [packs[2]];
  }

  lemma InitialLessons(packs: seq<Pack>)
    requires packs == InitialPacks
    ensures DownloadedLessons(packs) == 27
  {
  }

  lemma InitialUnique(packs: seq<Pack>)
    requires packs == InitialPacks
    ensures UniqueIds(packs)
  {
  }

  /** The size labels of the initially downloaded packs add up to 33 MB. */
  lemma InitialStorage(packs: seq<Pack>)
    requires packs == InitialPacks
    ensures StorageUsed(packs) == Some(33)
  {
    InitialSizes(packs);
    SumOfTwo(15, 18);
  }

  lemma InitialSizes(packs: seq<Pack>)
    requires packs == InitialPacks
    ensures DownloadedSizes(packs) == [Some(15), Some(18)]
  {
    InitialDownloaded(packs);
    FifteenMegabytes(packs[0].size);
    EighteenMegabytes(packs[2].size);
    SizesOfTwo(packs);
  }

  /** With two packs downloaded, the sizes are their two labels' parses. */
  lemma SizesOfTwo(packs: seq<Pack>)
    ensures var d := Downloaded(packs);
      |d| == 2 ==> DownloadedSizes(packs) == [ParseLeadingInt(d[0].size), ParseLeadingInt(d[1].size)]
  {
    var d, r := Downloaded(packs), DownloadedSizes(packs);
    if |d| == 2 {
      var x, y := ParseLeadingInt(d[0].size), ParseLeadingInt(d[1].size);
      assert |r| == 2 && r[0] == x && r[1] == y;
      PairOf(r, x, y);
    }
  }

  lemma PairOf<T>(r: seq<T>, x: T, y: T)
    requires |r| == 2 && r[0] == x && r[1] == y
    ensures r == [x, y]
  {
  }

  lemma SumOfTwo(a: int, b: int)
    ensures SumSizes([Some(a), Some(b)]) == Some(a + b)
  {
    var xs := [Some(a), Some(b)];
    assert xs[1..] == [Some(b)];
    assert xs[1..][1..] == [];
    assert SumSizes(xs[1..][1..]) == Some(0);
    assert SumSizes(xs[1..]) == Some(b);
  }

  lemma FifteenMegabytes(text: string)
    requires text == "15 MB"
    ensures ParseLeadingInt(text) == Some(15)
  {
    assert NatToString(15) == "15";
    SizeLabel(text, 15);
  }

  lemma EighteenMegabytes(text: string)
    requires text == "18 MB"
    ensures ParseLeadingInt(text) == Some(18)
  {
    assert NatToString(18) == "18";
    SizeLabel(text, 18);
  }

  /** A label "<n> MB" has leading integer `n`. */
  lemma SizeLabel(text: string, n: nat)
    requires text == NatToString(n) + " MB"
    ensures ParseLeadingInt(text) == Some(n)
  {
    ParseSizeLabel(n, " MB");
  }

  /** The English name shown for each language; every code has one and no two
      codes share a name. */
  function LanguageName(lang: Language): (r: string)
    ensures r != ""
  {
    match lang
    case En => "English"
    case Es => "Spanish"
    case Fr => "French"
    case Sw => "Swahili"
  }

  lemma LanguageNamesDistinct(a: Language, b: Language)
    ensures LanguageName(a) == LanguageName(b) <==> a == b
  {
  }
}
