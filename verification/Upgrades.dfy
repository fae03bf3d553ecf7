/** Checkpoint upgrades: every upgrade whose tag a checkpoint lacks is applied, after the upgrades it
    depends on. */
module Upgrades {
  import opened Wrappers

  type Tag = string

  /** What is known about the upgrades: the tags each one depends on, and the tags of the old linear
      version numbers. */
  datatype Registry = Registry(depends: map<Tag, seq<Tag>>, legacy: map<int, Tag>)

  function Tags(s: seq<Tag>): set<Tag> {
    set t | t in s
  }

  // ------------------------------------------------------------ orders

  /** Everything t depends on is present. */
  predicate Ready(r: Registry, t: Tag, tags: set<Tag>)
    requires t in r.depends
  {
    forall d :: d in r.depends[t] ==> d in tags
  }

  predicate NoDup(s: seq<Tag>) {
    forall i, j :: 0 <= i < j < |s| ==> s[i] != s[j]
  }

  /** A sequence of known upgrades, each once, each missing in the checkpoint and ready when its turn comes. */
  predicate Respects(r: Registry, tags: set<Tag>, order: seq<Tag>) {
    && NoDup(order)
    && (forall i {:trigger order[i]} :: 0 <= i < |order| ==>
          order[i] in r.depends && order[i] !in tags && Ready(r, order[i], tags + Tags(order[..i])))
  }

  /** An order that applies everything missing. */
  predicate Complete(r: Registry, tags: set<Tag>, order: seq<Tag>) {
    Respects(r, tags, order) && Tags(order) == r.depends.Keys - tags
  }

  /** Every missing upgrade occurs once, behind everything it depends on that is missing too. */
  lemma CompleteMeans(r: Registry, tags: set<Tag>, order: seq<Tag>)
    ensures Complete(r, tags, order) <==>
              && multiset(order) == multiset(r.depends.Keys - tags)
              && (forall i, d :: 0 <= i < |order| && order[i] in r.depends && d in r.depends[order[i]] ==>
                    d in tags || d in order[..i])
  {
    OnceEach(order, r.depends.Keys - tags);
    if Complete(r, tags, order) {
      forall i, d | 0 <= i < |order| && order[i] in r.depends && d in r.depends[order[i]]
        ensures d in tags || d in order[..i]
      {
        assert Ready(r, order[i], tags + Tags(order[..i]));
      }
    }
    if multiset(order) == multiset(r.depends.Keys - tags) {
      forall i | 0 <= i < |order| ensures order[i] in r.depends && order[i] !in tags {
        assert order[i] in multiset(order);
      }
    }
  }

  lemma {:induction false} OnceEach(order: seq<Tag>, s: set<Tag>)
    ensures multiset(order) == multiset(s) <==> NoDup(order) && Tags(order) == s
    decreases |order|
  {
    if multiset(order) == multiset(s) {
      forall t ensures t in Tags(order) <==> t in s { assert t in multiset(order) <==> t in multiset(s); }
      forall i, j | 0 <= i < j < |order| ensures order[i] != order[j] {
        assert order == order[..j] + [order[j]] + order[j + 1..];
        assert multiset(order)[order[j]] <= 1;
        assert order[..j][i] == order[i];
        assert multiset(order) == multiset(order[..j]) + multiset{order[j]} + multiset(order[j + 1..]);
        assert order[i] in multiset(order[..j]);
      }
    }
    if NoDup(order) && Tags(order) == s {
      if order != [] {
        var n := |order| - 1;
        assert order == order[..n] + [order[n]];
        OnceEach(order[..n], s - {order[n]});
        assert Tags(order[..n]) == s - {order[n]};
        assert multiset(s) == multiset(s - {order[n]}) + multiset{order[n]};
      }
    }
  }

  lemma RespectsMore(r: Registry, tags: set<Tag>, order: seq<Tag>, t: Tag)
    requires Respects(r, tags, order) && t in r.depends && t !in tags + Tags(order) && Ready(r, t, tags + Tags(order))
    ensures Respects(r, tags, order + [t]) && Tags(order + [t]) == Tags(order) + {t}
  {
    var longer := order + [t];
    forall i {:trigger longer[i]} | 0 <= i < |longer|
      ensures longer[i] in r.depends && longer[i] !in tags && Ready(r, longer[i], tags + Tags(longer[..i]))
    {
      assert longer[..i] == order[..i];
      if i < |order| { assert longer[i] == order[i]; } else { assert order[..i] == order; }
    }
  }

  // ------------------------------------------------------------ the upgrade loop

  /** Some upgrades have been applied to a checkpoint that had the tags `present`; now it has `tags`. */
  ghost predicate Progress(r: Registry, present: set<Tag>, applied: seq<Tag>, tags: set<Tag>) {
    Respects(r, present, applied) && tags == present + Tags(applied)
  }

  lemma Start(r: Registry, present: set<Tag>)
    ensures Progress(r, present, [], present)
  {
    assert Tags([]) == {};
  }

  lemma ProgressMore(r: Registry, present: set<Tag>, applied: seq<Tag>, tags: set<Tag>, t: Tag, tags0: set<Tag>)
    requires Progress(r, present, applied, tags) && t in r.depends && t !in tags && Ready(r, t, tags0) && tags0 <= tags
    ensures Progress(r, present, applied + [t], tags + {t})
  {
    hide Respects;
    RespectsMore(r, present, applied, t);
    hide Tags;
    assert tags + {t} == present + (Tags(applied) + {t});
  }

  /** The round is one arrangement of the set. */
  predicate Arranges(round: seq<Tag>, ready: set<Tag>) {
    Tags(round) == ready && |round| == |ready|
  }

  lemma ArrangesMore(round: seq<Tag>, done: set<Tag>, t: Tag)
    requires Arranges(round, done) && t !in done
    ensures Arranges(round + [t], done + {t})
  {
  }

  /** All upgrades of one round, in any order. */
  method ApplyRound(r: Registry, ghost present: set<Tag>, applied: seq<Tag>, tags: set<Tag>, ready: set<Tag>)
      returns (applied': seq<Tag>, tags': set<Tag>, ghost round: seq<Tag>)
    requires Progress(r, present, applied, tags)
    requires forall t :: t in ready ==> t in r.depends && t !in tags && Ready(r, t, tags)
    ensures Progress(r, present, applied', tags') && tags' == tags + ready
    ensures applied' == applied + round && Arranges(round, ready)
  {
    hide Progress, Ready, Arranges;
    applied', tags', round := applied, tags, [];
    var todo := ready;
    NoneArranged();
    assert ready - todo == {};
    while todo != {}
      invariant todo <= ready && Progress(r, present, applied', tags') && tags' == tags + (ready - todo)
      invariant applied' == applied + round && Arranges(round, ready - todo)
      decreases |todo|
    {
      var tag :| tag in todo;
      ProgressMore(r, present, applied', tags', tag, tags);
      ArrangesMore(round, ready - todo, tag);
      OneDone(tags, ready, todo, tag);
      round := round + [tag];
      applied' := applied' + [tag];
      tags' := tags' + {tag};
      todo := todo - {tag};
    }
    assert ready - todo == ready;
  }

  lemma OneDone(tags: set<Tag>, ready: set<Tag>, todo: set<Tag>, t: Tag)
    requires todo <= ready && t in todo
    ensures (ready - todo) + {t} == ready - (todo - {t}) && tags + (ready - todo) + {t} == tags + (ready - (todo - {t}))
    ensures |todo - {t}| < |todo|
  {
  }

  lemma NoneArranged()
    ensures Arranges([], {})
  {
  }

  /** The upgrades still to be applied. */
  function Left(r: Registry, tags: set<Tag>): set<Tag> {
    r.depends.Keys - tags
  }

  lemma LeftKnown(r: Registry, tags: set<Tag>)
    ensures Left(r, tags) <= r.depends.Keys && forall t :: t in Left(r, tags) ==> t in r.depends && t !in tags
  {
  }

  lemma LeftShrinks(r: Registry, tags: set<Tag>, ready: set<Tag>)
    requires ready <= Left(r, tags) && ready != {}
    ensures Left(r, tags + ready) == Left(r, tags) - ready && |Left(r, tags) - ready| < |Left(r, tags)|
  {
    var left := Left(r, tags);
    assert left == (left - ready) + ready && (left - ready) !! ready;
  }

  /** As long as upgrades are left over, a complete order has a next one: its first that is left over. */
  lemma SomeReady(r: Registry, present: set<Tag>, applied: seq<Tag>, tags: set<Tag>, order: seq<Tag>)
    requires Left(r, tags) != {} && Progress(r, present, applied, tags)
    ensures Complete(r, present, order) ==> exists t :: t in Left(r, tags) && t in r.depends && Ready(r, t, tags)
  {
    if Complete(r, present, order) {
      var left := Left(r, tags);
      var t :| t in left;
      assert t in Tags(order);
      var i := FirstLeft(order, left);
      assert Ready(r, order[i], present + Tags(order[..i]));
      forall d | d in r.depends[order[i]] ensures d in tags {
        assert d in present || d in order[..i];
        assert d in order[..i] ==> d !in left && d in Tags(order);
      }
    }
  }

  lemma NoneReady(r: Registry, present: set<Tag>, applied: seq<Tag>, tags: set<Tag>)
    requires Left(r, tags) != {} && Progress(r, present, applied, tags)
    requires forall t :: t in Left(r, tags) && t in r.depends ==> !Ready(r, t, tags)
    ensures forall order :: !Complete(r, present, order)
  {
    hide Complete, Ready, Tags, Left, Progress;
    forall order ensures !Complete(r, present, order) {
      SomeReady(r, present, applied, tags, order);
    }
  }

  lemma {:induction false} FirstLeft(order: seq<Tag>, left: set<Tag>) returns (i: nat)
    requires exists t :: t in order && t in left
    ensures i < |order| && order[i] in left && forall t :: t in order[..i] ==> t !in left
    decreases |order|
  {
    if order[0] in left {
      i := 0;
    } else {
      var t :| t in order && t in left;
      assert order == [order[0]] + order[1..];
      var k := FirstLeft(order[1..], left);
      i := k + 1;
      assert order[..i] == [order[0]] + order[1..][..k];
    }
  }

  // ------------------------------------------------------------ the runs of the loop

  /** The upgrades that can be applied now. */
  function ReadySet(r: Registry, tags: set<Tag>): set<Tag> {
    set t | t in Left(r, tags) && t in r.depends && Ready(r, t, tags)
  }

  /** The order in which some run of the loop applies everything: round by round exactly the ready upgrades, each
      round in any arrangement. */
  predicate IsRun(r: Registry, tags: set<Tag>, order: seq<Tag>)
    decreases |order|
  {
    var ready := ReadySet(r, tags);
    if Left(r, tags) == {} then order == []
    else 0 < |ready| <= |order| && Arranges(order[..|ready|], ready) && IsRun(r, tags + ready, order[|ready|..])
  }

  lemma RunMore(r: Registry, tags: set<Tag>, round: seq<Tag>, rest: seq<Tag>)
    requires Left(r, tags) != {} && ReadySet(r, tags) != {} && Arranges(round, ReadySet(r, tags))
             && IsRun(r, tags + ReadySet(r, tags), rest)
    ensures IsRun(r, tags, round + rest)
  {
    hide Arranges, ReadySet, Left;
    assert |round| == |ReadySet(r, tags)| by { ArrangedSize(round, ReadySet(r, tags)); }
    assert (round + rest)[..|round|] == round && (round + rest)[|round|..] == rest;
  }

  lemma ArrangedSize(round: seq<Tag>, ready: set<Tag>)
    requires Arranges(round, ready)
    ensures |round| == |ready|
  {
  }

  /** However the loop goes on, all of it is a run. */
  ghost predicate RunsOn(r: Registry, present: set<Tag>, applied: seq<Tag>, tags: set<Tag>) {
    forall rest {:trigger IsRun(r, tags, rest)} :: IsRun(r, tags, rest) ==> IsRun(r, present, applied + rest)
  }

  lemma RunsStart(r: Registry, present: set<Tag>)
    ensures RunsOn(r, present, [], present)
  {
    hide IsRun;
    forall rest {:trigger IsRun(r, present, rest)} | IsRun(r, present, rest) ensures IsRun(r, present, [] + rest) {
      assert [] + rest == rest;
    }
  }

  lemma RunsRound(r: Registry, present: set<Tag>, applied: seq<Tag>, tags: set<Tag>, round: seq<Tag>)
    requires RunsOn(r, present, applied, tags) && Left(r, tags) != {} && ReadySet(r, tags) != {}
             && Arranges(round, ReadySet(r, tags))
    ensures RunsOn(r, present, applied + round, tags + ReadySet(r, tags))
  {
    hide IsRun, Arranges, ReadySet, Left;
    var tags' := tags + ReadySet(r, tags);
    forall rest {:trigger IsRun(r, tags', rest)} | IsRun(r, tags', rest)
        ensures IsRun(r, present, applied + round + rest) {
      RunMore(r, tags, round, rest);
      assert applied + round + rest == applied + (round + rest);
    }
  }

  lemma RunsEnd(r: Registry, present: set<Tag>, applied: seq<Tag>, tags: set<Tag>)
    requires RunsOn(r, present, applied, tags) && Left(r, tags) == {}
    ensures IsRun(r, present, applied)
  {
    assert IsRun(r, tags, []);
    assert applied + [] == applied;
  }

  lemma ReadyIs(r: Registry, tags: set<Tag>, toApply: set<Tag>)
    requires toApply == Left(r, tags)
    ensures toApply <= r.depends.Keys && ReadySet(r, tags) == set t | t in toApply && Ready(r, t, tags)
  {
  }

  /** The upgrade loop of `process_file`: it ends with everything applied in a respectful order, or
      aborts exactly if there is no such order. */
  method Upgrade(r: Registry, present: set<Tag>) returns (res: Result<seq<Tag>>, tags: set<Tag>)
    ensures res.Ok? ==> IsRun(r, present, res.value)
    ensures res.Ok? ==> Complete(r, present, res.value) && tags == present + r.depends.Keys
    ensures res.Ok? ==> multiset(res.value) == multiset(r.depends.Keys - present)
    ensures res.Ok? ==>
              forall i, d :: 0 <= i < |res.value| && res.value[i] in r.depends && d in r.depends[res.value[i]] ==>
                d in present || d in res.value[..i]
    ensures res.Err? ==> forall order :: !Complete(r, present, order)
  {
    tags := present;
    var applied: seq<Tag> := [];
    var toApply := r.depends.Keys - tags;
    hide Ready, Complete, Progress, Left, RunsOn, IsRun, Arranges, ReadySet;
    Start(r, present);
    RunsStart(r, present);
    while toApply != {}
      invariant Progress(r, present, applied, tags) && toApply == Left(r, tags) && RunsOn(r, present, applied, tags)
      decreases |toApply|
    {
      LeftKnown(r, tags);
      ReadyIs(r, tags, toApply);
      var ready := set t | t in toApply && Ready(r, t, tags);
      if ready == {} {
        NoneReady(r, present, applied, tags);
        return Err("upgrade dependences impossible to resolve"), tags;
      }
      LeftShrinks(r, tags, ready);
      ghost var round, applied0, tags0 := [], applied, tags;
      applied, tags, round := ApplyRound(r, present, applied, tags, ready);
      RunsRound(r, present, applied0, tags0, round);
      toApply := toApply - ready;
    }
    RunsEnd(r, present, applied, tags);
    Finished(r, present, applied, tags);
    CompleteMeans(r, present, applied);
    res := Ok(applied);
  }

  lemma Finished(r: Registry, present: set<Tag>, applied: seq<Tag>, tags: set<Tag>)
    requires Progress(r, present, applied, tags) && Left(r, tags) == {}
    ensures Complete(r, present, applied) && tags == present + r.depends.Keys
  {
    forall t | t in Tags(applied) ensures t in r.depends.Keys && t !in present {
      var i :| 0 <= i < |applied| && applied[i] == t;
    }
    forall t | t in r.depends.Keys ensures t in tags {
      assert t in Left(r, tags) || t in tags;
    }
  }

  // ------------------------------------------------------------ loading the upgrades

  /** An upgrade as its file defines it, perhaps with an old linear version number. */
  datatype Upgrader = Upgrader(tag: Tag, depends: seq<Tag>, version: Option<int>)

  /** File k is the last one with the tag t. */
  predicate LastTag(files: seq<Upgrader>, t: Tag, k: int) {
    0 <= k < |files| && files[k].tag == t && forall l :: k < l < |files| ==> files[l].tag != t
  }

  /** File k is the last one with the version number v. */
  predicate LastVersion(files: seq<Upgrader>, v: int, k: int) {
    0 <= k < |files| && files[k].version == Some(v) && forall l :: k < l < |files| ==> files[l].version != Some(v)
  }

  /** The directories of files by tag and by version: of several files with the same one, the last counts. */
  ghost predicate Listed(files: seq<Upgrader>, byTag: map<Tag, int>, byVersion: map<int, int>) {
    && (forall t {:trigger t in byTag} :: t in byTag ==> LastTag(files, t, byTag[t]))
    && (forall v {:trigger v in byVersion} :: v in byVersion ==> LastVersion(files, v, byVersion[v]))
    && (forall f :: f in files ==> f.tag in byTag && (f.version.Some? ==> f.version.value in byVersion))
  }

  lemma ListedMore(files: seq<Upgrader>, byTag: map<Tag, int>, byVersion: map<int, int>, f: Upgrader)
    requires Listed(files, byTag, byVersion)
    ensures Listed(files + [f], byTag[f.tag := |files|],
                   if f.version.Some? then byVersion[f.version.value := |files|] else byVersion)
  {
    var files', byTag' := files + [f], byTag[f.tag := |files|];
    var byVersion' := if f.version.Some? then byVersion[f.version.value := |files|] else byVersion;
    forall t {:trigger t in byTag'} | t in byTag' ensures LastTag(files', t, byTag'[t]) {
      assert t != f.tag ==> LastTag(files, t, byTag[t]);
    }
    forall v {:trigger v in byVersion'} | v in byVersion' ensures LastVersion(files', v, byVersion'[v]) {
      assert byVersion'[v] != |files| ==> v in byVersion && LastVersion(files, v, byVersion[v]);
    }
  }

  /** The two directories, filled file by file. */
  method ListAll(files: seq<Upgrader>) returns (byTag: map<Tag, int>, byVersion: map<int, int>)
    ensures Listed(files, byTag, byVersion)
  {
    hide Listed;
    byTag, byVersion := map[], map[];
    ListedNone();
    for k := 0 to |files|
      invariant Listed(files[..k], byTag, byVersion)
    {
      ListedMore(files[..k], byTag, byVersion, files[k]);
      assert files[..k + 1] == files[..k] + [files[k]];
      if files[k].version.Some? {
        byVersion := byVersion[files[k].version.value := k];
      }
      byTag := byTag[files[k].tag := k];
    }
    assert files[..|files|] == files;
  }

  lemma ListedNone()
    ensures Listed([], map[], map[])
  {
  }

  /** What file k depends on, once the versions from 3 up to but not including `top` form a chain. */
  function Chained(files: seq<Upgrader>, byVersion: map<int, int>, top: int, k: int): seq<Tag>
    requires 0 <= k < |files|
  {
    var f := files[k];
    if f.version.Some? && 3 <= f.version.value < top && f.version.value in byVersion && byVersion[f.version.value] == k
       && f.version.value - 1 in byVersion && 0 <= byVersion[f.version.value - 1] < |files|
    then [files[byVersion[f.version.value - 1]].tag]
    else f.depends
  }

  /** The dependencies of all files while the chain is made. */
  ghost predicate ChainedTo(files: seq<Upgrader>, byVersion: map<int, int>, top: int, ups: seq<Upgrader>) {
    |ups| == |files| && forall k {:trigger ups[k]} :: 0 <= k < |ups| ==>
        ups[k] == files[k].(depends := Chained(files, byVersion, top, k))
  }

  lemma ChainedNone(files: seq<Upgrader>, byVersion: map<int, int>)
    ensures ChainedTo(files, byVersion, 3, files)
  {
  }

  lemma ChainedMore(files: seq<Upgrader>, byTag: map<Tag, int>, byVersion: map<int, int>, i: int, ups: seq<Upgrader>)
    requires Listed(files, byTag, byVersion) && ChainedTo(files, byVersion, i, ups) && i >= 3 && i in byVersion
             && i - 1 in byVersion
    ensures 0 <= byVersion[i] < |ups| && 0 <= byVersion[i - 1] < |ups|
    ensures ChainedTo(files, byVersion, i + 1,
            ups[byVersion[i] := ups[byVersion[i]].(depends := [ups[byVersion[i - 1]].tag])])
  {
    assert LastVersion(files, i, byVersion[i]) && LastVersion(files, i - 1, byVersion[i - 1]);
    var k0 := byVersion[i];
    var ups' := ups[k0 := ups[k0].(depends := [ups[byVersion[i - 1]].tag])];
    forall k {:trigger ups'[k]} | 0 <= k < |ups'| ensures ups'[k] == files[k].(depends := Chained(files, byVersion,
        i + 1, k)) {
      assert ups[k] == files[k].(depends := Chained(files, byVersion, i, k));
    }
  }

  /** If there is a version 3 below `top`, all versions from 2 up to `top` are there. */
  ghost predicate Reaches(byVersion: map<int, int>, top: int) {
    top >= 3 && (top > 3 ==> forall v {:trigger v in byVersion} :: 2 <= v < top ==> v in byVersion)
  }

  /** What the upgrade loop and the version numbers see of the files. */
  ghost predicate Loaded(files: seq<Upgrader>, byTag: map<Tag, int>, byVersion: map<int, int>, top: int, r: Registry) {
    && Listed(files, byTag, byVersion)
    && Reaches(byVersion, top) && top !in byVersion
    && r.depends.Keys == byTag.Keys && r.legacy.Keys == byVersion.Keys
    && (forall t :: t in byTag && 0 <= byTag[t] < |files| ==> r.depends[t] == Chained(files, byVersion, top, byTag[t]))
    && (forall v :: v in byVersion && 0 <= byVersion[v] < |files| ==> r.legacy[v] == files[byVersion[v]].tag)
  }

  /** `load_all`: every version from 3 on up to the first missing one is made to depend on the version before it
      and on nothing else; with a version 3 but no version 2 the lookup fails. */
  method LoadAll(files: seq<Upgrader>) returns (res: Result<Registry>, ghost byTag: map<Tag, int>,
      ghost byVersion: map<int, int>, ghost top: int)
    ensures res.Err? <==>
              (exists f :: f in files && f.version == Some(3)) && !(exists f :: f in files && f.version == Some(2))
    ensures res.Ok? ==> Loaded(files, byTag, byVersion, top, res.value)
  {
    hide Listed, Chained, ChainedTo;
    var tags, versions := ListAll(files);
    byTag, byVersion := tags, versions;
    VersionsOf(files, tags, versions);
    var ups := files;
    ChainedNone(files, versions);
    var i := 3;
    ghost var ahead := versions.Keys;
    while i in versions
      invariant Reaches(versions, i) && ChainedTo(files, versions, i, ups)
      invariant forall k :: k in versions && k >= i ==> k in ahead
      decreases |ahead|
    {
      ahead := ahead - {i};
      if i - 1 !in versions {
        top := i;
        return Err("KeyError"), byTag, byVersion, top;
      }
      ChainedMore(files, tags, versions, i, ups);
      ups := ups[versions[i] := ups[versions[i]].(depends := [ups[versions[i - 1]].tag])];
      i := i + 1;
    }
    top := i;
    InFiles(files, tags, versions, top, ups);
    res := Ok(Registry(map t | t in tags :: ups[tags[t]].depends, map v | v in versions :: ups[versions[v]].tag));
  }

  lemma VersionsOf(files: seq<Upgrader>, byTag: map<Tag, int>, byVersion: map<int, int>)
    requires Listed(files, byTag, byVersion)
    ensures forall v :: v in byVersion <==> exists f :: f in files && f.version == Some(v)
  {
    forall v ensures v in byVersion <==> exists f :: f in files && f.version == Some(v) {
      if v in byVersion {
        assert LastVersion(files, v, byVersion[v]);
        assert files[byVersion[v]] in files;
      }
    }
  }

  lemma InFiles(files: seq<Upgrader>, byTag: map<Tag, int>, byVersion: map<int, int>, top: int, ups: seq<Upgrader>)
    requires Listed(files, byTag, byVersion) && ChainedTo(files, byVersion, top, ups)
    ensures forall t :: t in byTag ==>
              0 <= byTag[t] < |ups| == |files| && ups[byTag[t]].depends == Chained(files, byVersion, top, byTag[t])
    ensures forall v :: v in byVersion ==>
              0 <= byVersion[v] < |ups| == |files| && ups[byVersion[v]].tag == files[byVersion[v]].tag
  {
    forall t | t in byTag ensures 0 <= byTag[t] < |ups| { assert LastTag(files, t, byTag[t]); }
    forall v | v in byVersion ensures 0 <= byVersion[v] < |ups| { assert LastVersion(files, v, byVersion[v]); }
    hide Chained;
  }

  // ------------------------------------------------------------ legacy versions

  /** Version i depends on the version before it, and on nothing else. */
  predicate LinkedAt(r: Registry, i: int) {
    i in r.legacy && i - 1 in r.legacy && r.legacy[i] in r.depends && r.depends[r.legacy[i]] == [r.legacy[i - 1]]
  }

  ghost predicate Linked(r: Registry, top: int) {
    forall i {:trigger LinkedAt(r, i)} :: 3 <= i < top ==> LinkedAt(r, i)
  }

  /** Versions have tags of their own. */
  ghost predicate OwnTags(r: Registry, top: int) {
    forall i, j :: 2 <= i < j < top && i in r.legacy && j in r.legacy ==> r.legacy[i] != r.legacy[j]
  }

  /** If no two files have the same tag, the loaded versions form a chain of different tags. */
  lemma LoadedLinked(files: seq<Upgrader>, byTag: map<Tag, int>, byVersion: map<int, int>, top: int, r: Registry)
    requires Loaded(files, byTag, byVersion, top, r)
    requires forall k, l :: 0 <= k < l < |files| ==> files[k].tag != files[l].tag
    ensures Linked(r, top) && OwnTags(r, top)
  {
    hide Listed, Chained, LastTag, LastVersion;
    forall i {:trigger LinkedAt(r, i)} | 3 <= i < top ensures LinkedAt(r, i) {
      assert i in byVersion && i - 1 in byVersion;
      OwnFile(files, byTag, byVersion, top, i);
    }
    forall i, j | 2 <= i < j < top && i in r.legacy && j in r.legacy ensures r.legacy[i] != r.legacy[j] {
      VersionFile(files, byTag, byVersion, i);
      VersionFile(files, byTag, byVersion, j);
    }
  }

  lemma VersionFile(files: seq<Upgrader>, byTag: map<Tag, int>, byVersion: map<int, int>, i: int)
    requires Listed(files, byTag, byVersion) && i in byVersion
    ensures 0 <= byVersion[i] < |files| && files[byVersion[i]].version == Some(i)
  {
    assert LastVersion(files, i, byVersion[i]);
  }

  /** The file of version i is the one its tag stands for. */
  lemma OwnFile(files: seq<Upgrader>, byTag: map<Tag, int>, byVersion: map<int, int>, top: int, i: int)
    requires Listed(files, byTag, byVersion) && 3 <= i < top && i in byVersion && i - 1 in byVersion
    requires forall k, l :: 0 <= k < l < |files| ==> files[k].tag != files[l].tag
    ensures 0 <= byVersion[i] < |files| && 0 <= byVersion[i - 1] < |files|
    ensures var t := files[byVersion[i]].tag;
            && t in byTag && byTag[t] == byVersion[i]
            && Chained(files, byVersion, top, byVersion[i]) == [files[byVersion[i - 1]].tag]
  {
    VersionFile(files, byTag, byVersion, i);
    VersionFile(files, byTag, byVersion, i - 1);
    var f := files[byVersion[i]];
    assert f in files && f.tag in byTag && LastTag(files, f.tag, byTag[f.tag]);
  }

  /** The tags of the versions from 2 up to but not including `version`. */
  function Older(r: Registry, version: int): set<Tag> {
    set i | 2 <= i < version && i in r.legacy :: r.legacy[i]
  }

  /** An old version number stands for the tags of all versions up to it. */
  method FromVersion(r: Registry, version: int) returns (res: Result<set<Tag>>)
    ensures res.Ok? <==> forall i :: 2 <= i <= version ==> i in r.legacy
    ensures res.Ok? ==> res.value == Older(r, version + 1)
  {
    var tags: set<Tag> := {};
    var i := 2;
    while i < version + 1
      invariant i == 2 || 2 <= i <= version + 1
      invariant forall k :: 2 <= k < i ==> k in r.legacy
      invariant tags == Older(r, i)
    {
      if i !in r.legacy {
        return Err("KeyError");
      }
      tags := tags + {r.legacy[i]};
      i := i + 1;
    }
    assert version < 2 ==> Older(r, 2) == Older(r, version + 1);
    res := Ok(tags);
  }

  /** Versions are upgraded in their order, as long as no version between them is already present. */
  lemma {:induction false} LegacyOrder(r: Registry, top: int, tags: set<Tag>, order: seq<Tag>, i: int, j: int, b: nat)
      returns (a: nat)
    requires Linked(r, top) && Respects(r, tags, order) && 2 <= i < j < top && i in r.legacy && j in r.legacy
    requires forall k :: i <= k < j && k in r.legacy ==> r.legacy[k] !in tags
    requires b < |order| && order[b] == r.legacy[j]
    ensures a < b && order[a] == r.legacy[i]
    decreases j
  {
    assert LinkedAt(r, j);
    var prev := r.legacy[j - 1];
    assert Ready(r, order[b], tags + Tags(order[..b]));
    assert prev in r.depends[order[b]] && prev in order[..b];
    var c :| 0 <= c < b && order[c] == prev;
    if j - 1 == i {
      a := c;
    } else {
      a := LegacyOrder(r, top, tags, order, i, j - 1, c);
    }
  }

  predicate Precedes(order: seq<Tag>, a: Tag, b: Tag) {
    exists x, y :: 0 <= x < y < |order| && order[x] == a && order[y] == b
  }

  /** The order without the tags in `out`. */
  function Rest(order: seq<Tag>, out: set<Tag>): seq<Tag> {
    if order == [] then []
    else
      var n := |order| - 1;
      Rest(order[..n], out) + if order[n] in out then [] else [order[n]]
  }

  lemma TagsAppend(a: seq<Tag>, b: seq<Tag>)
    ensures Tags(a + b) == Tags(a) + Tags(b)
  {
  }

  lemma {:induction false} RestTags(order: seq<Tag>, out: set<Tag>)
    ensures Tags(Rest(order, out)) == Tags(order) - out
  {
    if order != [] {
      var n := |order| - 1;
      RestTags(order[..n], out);
      assert order == order[..n] + [order[n]];
      TagsAppend(order[..n], [order[n]]);
      TagsAppend(Rest(order[..n], out), if order[n] in out then [] else [order[n]]);
    }
  }

  lemma RespectsAt(r: Registry, tags: set<Tag>, order: seq<Tag>, n: nat)
    requires Respects(r, tags, order) && n < |order|
    ensures order[n] in r.depends && order[n] !in tags && Ready(r, order[n], tags + Tags(order[..n]))
            && order[n] !in Tags(order[..n])
  {
  }

  /** What is moved to the front of an order is no obstacle to the rest. */
  lemma {:induction false} MovedFirst(r: Registry, tags: set<Tag>, front: seq<Tag>, order: seq<Tag>)
    requires Respects(r, tags, front) && Respects(r, tags, order)
    ensures Respects(r, tags, front + Rest(order, Tags(front)))
    decreases |order|
  {
    hide Respects, Tags;
    var out := Tags(front);
    if order == [] {
      assert front + Rest(order, out) == front;
    } else {
      var n := |order| - 1;
      RespectsFirst(r, tags, order, n);
      MovedFirst(r, tags, front, order[..n]);
      RestTags(order[..n], out);
      var done, t := front + Rest(order[..n], out), order[n];
      TagsAppend(front, Rest(order[..n], out));
      RespectsAt(r, tags, order, n);
      if t !in out {
        assert Ready(r, t, tags + Tags(done));
        RespectsMore(r, tags, done, t);
        assert done + [t] == front + Rest(order, out);
      } else {
        assert done == front + Rest(order, out);
      }
    }
  }

  lemma RespectsFirst(r: Registry, tags: set<Tag>, order: seq<Tag>, n: nat)
    requires Respects(r, tags, order) && n <= |order|
    ensures Respects(r, tags, order[..n])
  {
    forall i {:trigger order[..n][i]} | 0 <= i < n
      ensures order[..n][i] in r.depends && order[..n][i] !in tags && Ready(r, order[..n][i],
              tags + Tags(order[..n][..i]))
    {
      assert order[..n][i] == order[i] && order[..n][..i] == order[..i];
    }
  }

  /** The last present version between i and j. */
  lemma {:induction false} LastPresent(r: Registry, tags: set<Tag>, i: int, j: int) returns (k: int)
    requires exists m :: i < m < j && m in r.legacy && r.legacy[m] in tags
    ensures i < k < j && k in r.legacy && r.legacy[k] in tags
    ensures forall m :: k < m < j && m in r.legacy ==> r.legacy[m] !in tags
    decreases j - i
  {
    if j - 1 in r.legacy && r.legacy[j - 1] in tags && i < j - 1 {
      k := j - 1;
    } else {
      k := LastPresent(r, tags, i, j - 1);
    }
  }

  // ------------------------------------------------------------ what all runs have in common

  lemma {:induction false} TagsSize(s: seq<Tag>)
    ensures |Tags(s)| <= |s| && (|Tags(s)| == |s| ==> NoDup(s))
  {
    if s != [] {
      var n := |s| - 1;
      TagsSize(s[..n]);
      assert s == s[..n] + [s[n]];
      assert Tags(s) == Tags(s[..n]) + {s[n]};
    }
  }

  lemma RoundRespects(r: Registry, tags: set<Tag>, round: seq<Tag>)
    requires Arranges(round, ReadySet(r, tags))
    ensures Respects(r, tags, round)
  {
    TagsSize(round);
    forall i {:trigger round[i]} | 0 <= i < |round|
      ensures round[i] in r.depends && round[i] !in tags && Ready(r, round[i], tags + Tags(round[..i]))
    {
      assert round[i] in Tags(round);
    }
  }

  lemma RespectsAppend(r: Registry, tags: set<Tag>, a: seq<Tag>, b: seq<Tag>)
    requires Respects(r, tags, a) && Respects(r, tags + Tags(a), b)
    ensures Respects(r, tags, a + b)
  {
    var s := a + b;
    forall i {:trigger s[i]} | 0 <= i < |s| ensures s[i] in r.depends && s[i] !in tags
        && Ready(r, s[i], tags + Tags(s[..i])) {
      if i < |a| {
        assert s[i] == a[i] && s[..i] == a[..i];
      } else {
        assert s[i] == b[i - |a|] && s[..i] == a + b[..i - |a|];
        TagsAppend(a, b[..i - |a|]);
        assert tags + Tags(s[..i]) == tags + Tags(a) + Tags(b[..i - |a|]);
      }
    }
    forall i, j | 0 <= i < j < |s| ensures s[i] != s[j] {
      if i < |a| <= j { assert a[i] in Tags(a) && s[j] == b[j - |a|]; }
    }
  }

  /** The other way round. */
  lemma RespectsBehind(r: Registry, tags: set<Tag>, a: seq<Tag>, b: seq<Tag>)
    requires Respects(r, tags, a + b)
    ensures Respects(r, tags + Tags(a), b)
  {
    var s := a + b;
    forall i {:trigger b[i]} | 0 <= i < |b|
      ensures b[i] in r.depends && b[i] !in tags + Tags(a) && Ready(r, b[i], tags + Tags(a) + Tags(b[..i]))
    {
      assert s[|a| + i] == b[i] && s[..|a| + i] == a + b[..i];
      TagsAppend(a, b[..i]);
      assert tags + Tags(s[..|a| + i]) == tags + Tags(a) + Tags(b[..i]);
      forall j | 0 <= j < |a| ensures a[j] != b[i] { assert s[j] == a[j]; }
    }
    forall i, j | 0 <= i < j < |b| ensures b[i] != b[j] { assert s[|a| + i] == b[i] && s[|a| + j] == b[j]; }
  }

  lemma LeftAfter(r: Registry, tags: set<Tag>, done: set<Tag>)
    ensures Left(r, tags + done) == Left(r, tags) - done
  {
  }

  /** The first round and the rest. */
  lemma RunSplit(r: Registry, tags: set<Tag>, order: seq<Tag>) returns (round: seq<Tag>, rest: seq<Tag>)
    requires IsRun(r, tags, order) && Left(r, tags) != {}
    ensures order == round + rest && Arranges(round, ReadySet(r, tags)) && IsRun(r, tags + ReadySet(r, tags), rest)
    ensures 0 < |ReadySet(r, tags)| == |round| && |rest| < |order|
  {
    hide ReadySet, Left, Arranges;
    var n := |ReadySet(r, tags)|;
    round, rest := order[..n], order[n..];
    ArrangedSize(round, ReadySet(r, tags));
  }

  lemma CompleteRound(r: Registry, tags: set<Tag>, round: seq<Tag>, rest: seq<Tag>)
    requires Arranges(round, ReadySet(r, tags)) && Complete(r, tags + ReadySet(r, tags), rest)
    ensures Complete(r, tags, round + rest)
  {
    RoundRespects(r, tags, round);
    hide Respects, Ready;
    RespectsAppend(r, tags, round, rest);
    TagsAppend(round, rest);
    assert ReadySet(r, tags) <= Left(r, tags);
  }

  /** A run applies everything, after its dependencies. */
  lemma {:induction false} RunComplete(r: Registry, tags: set<Tag>, order: seq<Tag>)
    requires IsRun(r, tags, order)
    ensures Complete(r, tags, order)
    decreases |order|
  {
    if Left(r, tags) == {} {
      assert Tags([]) == {};
    } else {
      hide IsRun, Complete, Arranges, ReadySet, Left;
      var round, rest := RunSplit(r, tags, order);
      RunComplete(r, tags + ReadySet(r, tags), rest);
      CompleteRound(r, tags, round, rest);
    }
  }

  lemma {:induction false} Arrange(s: set<Tag>) returns (round: seq<Tag>)
    ensures Arranges(round, s)
    decreases |s|
  {
    if s == {} {
      round := [];
      NoneArranged();
    } else {
      var t :| t in s;
      round := Arrange(s - {t});
      ArrangesMore(round, s - {t}, t);
      assert s - {t} + {t} == s;
      round := round + [t];
    }
  }

  /** As long as a complete order exists, the loop gets on, and a complete order of the rest exists. */
  lemma StillComplete(r: Registry, tags: set<Tag>, some: seq<Tag>)
    requires Complete(r, tags, some) && Left(r, tags) != {}
    ensures ReadySet(r, tags) != {} && Complete(r, tags + ReadySet(r, tags), Rest(some, ReadySet(r, tags)))
  {
    var ready := ReadySet(r, tags);
    Start(r, tags);
    SomeReady(r, tags, [], tags, some);
    var t :| t in Left(r, tags) && t in r.depends && Ready(r, t, tags);
    assert t in ready;
    var round := Arrange(ready);
    RoundRespects(r, tags, round);
    MovedFirst(r, tags, round, some);
    RespectsBehind(r, tags, round, Rest(some, ready));
    RestTags(some, ready);
    LeftAfter(r, tags, ready);
  }

  lemma {:induction false} SomeRun(r: Registry, tags: set<Tag>, some: seq<Tag>) returns (order: seq<Tag>)
    requires Complete(r, tags, some)
    ensures IsRun(r, tags, order)
    decreases |Left(r, tags)|
  {
    if Left(r, tags) == {} {
      order := [];
    } else {
      hide Complete, Arranges;
      var ready := ReadySet(r, tags);
      StillComplete(r, tags, some);
      LeftShrinks(r, tags, ready);
      var rest := SomeRun(r, tags + ready, Rest(some, ready));
      var round := Arrange(ready);
      hide ReadySet, Left;
      RunMore(r, tags, round, rest);
      order := round + rest;
    }
  }

  /** The round in which t is applied. */
  function RoundOf(r: Registry, tags: set<Tag>, t: Tag): nat
    decreases |Left(r, tags)|
  {
    var ready := ReadySet(r, tags);
    if ready == {} || t in ready then 0 else (LeftShrinks(r, tags, ready); 1 + RoundOf(r, tags + ready, t))
  }

  /** What is applied in an earlier round comes first. */
  lemma {:induction false} EarlierRound(r: Registry, tags: set<Tag>, order: seq<Tag>, a: Tag, b: Tag)
    requires IsRun(r, tags, order) && a in Left(r, tags) && b in Left(r, tags)
             && RoundOf(r, tags, a) < RoundOf(r, tags, b)
    ensures Precedes(order, a, b)
    decreases |order|
  {
    var ready := ReadySet(r, tags);
    var round, rest := order[..|ready|], order[|ready|..];
    RunComplete(r, tags, order);
    hide Complete;
    LeftAfter(r, tags, ready);
    if a in ready {
      assert a in Tags(round);
      CompleteHas(r, tags, order, b);
      assert b !in Tags(round);
      Across(order, |ready|, a, b);
    } else {
      EarlierRound(r, tags + ready, rest, a, b);
      Within(order, |ready|, a, b);
    }
  }

  lemma CompleteHas(r: Registry, tags: set<Tag>, order: seq<Tag>, t: Tag)
    requires Complete(r, tags, order) && t in Left(r, tags)
    ensures t in order
  {
    assert t in Tags(order);
  }

  lemma Across(order: seq<Tag>, n: nat, a: Tag, b: Tag)
    requires n <= |order| && a in order[..n] && b in order && b !in order[..n]
    ensures Precedes(order, a, b)
  {
    var x :| 0 <= x < n && order[x] == a;
    assert order == order[..n] + order[n..];
    var y :| 0 <= y < |order[n..]| && order[n..][y] == b;
    assert order[n + y] == b;
  }

  lemma Within(order: seq<Tag>, n: nat, a: Tag, b: Tag)
    requires n <= |order| && Precedes(order[n..], a, b)
    ensures Precedes(order, a, b)
  {
    var x, y :| 0 <= x < y < |order[n..]| && order[n..][x] == a && order[n..][y] == b;
    assert order[n + x] == a && order[n + y] == b;
  }

  lemma NotFirst(order: seq<Tag>, a: Tag, b: Tag)
    requires NoDup(order) && order != [] && order[0] == b
    ensures !Precedes(order, a, b)
  {
  }

  lemma NotAcross(round: seq<Tag>, rest: seq<Tag>, a: Tag, b: Tag)
    requires a !in round && b !in round && !Precedes(rest, a, b)
    ensures !Precedes(round + rest, a, b)
  {
    var s := round + rest;
    assert forall x :: 0 <= x < |round| ==> s[x] == round[x];
    assert forall x :: |round| <= x < |s| ==> s[x] == rest[x - |round|];
  }

  /** In some run, b is not behind a, if it is not applied in a later round. */
  lemma {:induction false} RunWithFirst(r: Registry, tags: set<Tag>, some: seq<Tag>, a: Tag, b: Tag)
      returns (order: seq<Tag>)
    requires Complete(r, tags, some) && b in Left(r, tags) && RoundOf(r, tags, b) <= RoundOf(r, tags, a)
    ensures IsRun(r, tags, order) && !Precedes(order, a, b)
    decreases |Left(r, tags)|
  {
    var ready := ReadySet(r, tags);
    StillComplete(r, tags, some);
    LeftShrinks(r, tags, ready);
    if b in ready {
      hide Complete, Arranges;
      var others := Arrange(ready - {b});
      FirstArranges(others, ready, b);
      var rest := SomeRun(r, tags + ready, Rest(some, ready));
      order := [b] + others + rest;
      RunMore(r, tags, [b] + others, rest);
      RunComplete(r, tags, order);
      CompleteNoDup(r, tags, order);
      NotFirst(order, a, b);
    } else {
      var round := Arrange(ready);
      assert a !in Tags(round) && b !in Tags(round);
      hide Complete, Arranges;
      var rest := RunWithFirst(r, tags + ready, Rest(some, ready), a, b);
      order := round + rest;
      RunMore(r, tags, round, rest);
      NotAcross(round, rest, a, b);
    }
  }

  lemma FirstArranges(others: seq<Tag>, ready: set<Tag>, b: Tag)
    requires Arranges(others, ready - {b}) && b in ready
    ensures Arranges([b] + others, ready)
  {
    TagsAppend([b], others);
    assert Tags([b]) == {b} && {b} + (ready - {b}) == ready;
  }

  lemma CompleteNoDup(r: Registry, tags: set<Tag>, order: seq<Tag>)
    requires Complete(r, tags, order)
    ensures NoDup(order)
  {
  }

  /** Of two missing upgrades, all runs of the loop apply the first before the second exactly if it is applied in an
      earlier round. */
  lemma RunsOrder(r: Registry, tags: set<Tag>, some: seq<Tag>, a: Tag, b: Tag)
    requires Complete(r, tags, some) && a in Left(r, tags) && b in Left(r, tags)
    ensures (forall order {:trigger IsRun(r, tags, order)} :: IsRun(r, tags, order) ==> Precedes(order, a, b))
            <==> RoundOf(r, tags, a) < RoundOf(r, tags, b)
  {
    hide Complete, IsRun, Precedes, RoundOf, Left;
    if RoundOf(r, tags, a) < RoundOf(r, tags, b) {
      forall order {:trigger IsRun(r, tags, order)} | IsRun(r, tags, order) ensures Precedes(order, a, b) {
        EarlierRound(r, tags, order, a, b);
      }
    } else {
      var order := RunWithFirst(r, tags, some, a, b);
    }
  }

  // ------------------------------------------------------------ the runs and the legacy versions

  /** Version v is known and missing in the checkpoint. */
  predicate Missing(r: Registry, tags: set<Tag>, v: int) {
    v in r.legacy && r.legacy[v] !in tags
  }

  lemma MissingLeft(r: Registry, top: int, tags: set<Tag>, v: int)
    requires Linked(r, top) && 3 <= v < top && Missing(r, tags, v)
    ensures r.legacy[v] in Left(r, tags)
  {
    assert LinkedAt(r, v);
  }

  /** Behind a present version, the missing ones are applied one in each round. */
  lemma {:induction false} LegacyRound(r: Registry, top: int, tags: set<Tag>, k: int, j: int)
    requires Linked(r, top) && 2 <= k < j < top && k in r.legacy && r.legacy[k] in tags
    requires forall m :: k < m <= j ==> Missing(r, tags, m)
    ensures Missing(r, tags, j) && RoundOf(r, tags, r.legacy[j]) == j - k - 1
    decreases j - k
  {
    var ready := ReadySet(r, tags);
    NextReady(r, top, tags, k);
    if k + 1 < j {
      forall m | k + 1 < m <= j ensures Missing(r, tags + ready, m) && r.legacy[m] !in ready {
        assert LinkedAt(r, m) && Missing(r, tags, m - 1) && Missing(r, tags, m);
        assert r.legacy[m - 1] in r.depends[r.legacy[m]];
        assert !Ready(r, r.legacy[m], tags);
      }
      assert Missing(r, tags, k + 1);
      LegacyRound(r, top, tags + ready, k + 1, j);
    }
    assert Missing(r, tags, j);
  }

  lemma NextReady(r: Registry, top: int, tags: set<Tag>, k: int)
    requires Linked(r, top) && 2 <= k && k + 1 < top && k in r.legacy && r.legacy[k] in tags && Missing(r, tags, k + 1)
    ensures r.legacy[k + 1] in ReadySet(r, tags)
  {
    assert LinkedAt(r, k + 1);
  }

  ghost predicate InVersionOrder(r: Registry, top: int, tags: set<Tag>, order: seq<Tag>) {
    forall i, j {:trigger Missing(r, tags, i), Missing(r, tags, j)} ::
      2 <= i < j < top && Missing(r, tags, i) && Missing(r, tags, j) ==> Precedes(order, r.legacy[i], r.legacy[j])
  }

  /** No present version lies between two missing ones. */
  ghost predicate NoGap(r: Registry, top: int, tags: set<Tag>) {
    forall i, k, j {:trigger Missing(r, tags, i), Missing(r, tags, k), Missing(r, tags, j)} ::
      2 <= i < k < j < top && Missing(r, tags, i) && Missing(r, tags, j) && k in r.legacy ==> Missing(r, tags, k)
  }

  lemma NoGapInOrder(r: Registry, top: int, tags: set<Tag>, order: seq<Tag>)
    requires Linked(r, top) && NoGap(r, top, tags) && Complete(r, tags, order)
    ensures InVersionOrder(r, top, tags, order)
  {
    forall i, j {:trigger Missing(r, tags, i), Missing(r, tags, j)} | 2 <= i < j < top && Missing(r, tags, i)
        && Missing(r, tags, j)
      ensures Precedes(order, r.legacy[i], r.legacy[j])
    {
      MissingLeft(r, top, tags, j);
      CompleteHas(r, tags, order, r.legacy[j]);
      var b :| 0 <= b < |order| && order[b] == r.legacy[j];
      forall k | i <= k < j && k in r.legacy ensures r.legacy[k] !in tags {
        assert k > i ==> Missing(r, tags, k);
      }
      var a := LegacyOrder(r, top, tags, order, i, j, b);
    }
  }

  /** All runs of the loop apply the missing versions in their order exactly if no present version lies between two
      missing ones. */
  lemma LegacyRunsExactly(r: Registry, top: int, tags: set<Tag>, some: seq<Tag>)
    requires Linked(r, top) && Complete(r, tags, some)
    ensures (forall order {:trigger IsRun(r, tags, order)} ::
              IsRun(r, tags, order) ==> InVersionOrder(r, top, tags, order))
            <==> NoGap(r, top, tags)
  {
    if NoGap(r, top, tags) {
      forall order {:trigger IsRun(r, tags, order)} | IsRun(r, tags, order)
          ensures InVersionOrder(r, top, tags, order) {
        RunComplete(r, tags, order);
        NoGapInOrder(r, top, tags, order);
      }
    } else {
      hide Complete, Linked, IsRun, RoundOf;
      var i, k0, j :| 2 <= i < k0 < j < top && Missing(r, tags, i) && Missing(r, tags, j) && k0 in r.legacy
          && !Missing(r, tags, k0);
      var k := LastPresent(r, tags, i, j);
      assert Missing(r, tags, k + 1) by { NextMissing(r, top, tags, k, j); }
      NextReady(r, top, tags, k);
      MissingLeft(r, top, tags, k + 1);
      FirstRound(r, tags, r.legacy[k + 1]);
      var order := RunWithFirst(r, tags, some, r.legacy[i], r.legacy[k + 1]);
      assert !InVersionOrder(r, top, tags, order);
    }
  }

  lemma NextMissing(r: Registry, top: int, tags: set<Tag>, k: int, j: int)
    requires Linked(r, top) && 2 <= k < j < top && Missing(r, tags, j)
    requires forall m :: k < m < j && m in r.legacy ==> r.legacy[m] !in tags
    ensures Missing(r, tags, k + 1)
  {
    assert LinkedAt(r, k + 1);
  }

  lemma FirstRound(r: Registry, tags: set<Tag>, t: Tag)
    requires t in ReadySet(r, tags)
    ensures RoundOf(r, tags, t) == 0
  {
  }

  /** A gap breaks the chain: with version 3 present and 2 missing, a run may apply 4 before 2. */
  lemma GapBreaksOrder(r: Registry)
    requires r == Registry(map["v2" := [], "v3" := ["v2"], "v4" := ["v3"]], map[2 := "v2", 3 := "v3", 4 := "v4"])
    ensures LinkedAt(r, 3) && LinkedAt(r, 4) && IsRun(r, {"v3"}, ["v4", "v2"])
  {
    var order := ["v4", "v2"];
    assert "v2"[1] == '2' && "v3"[1] == '3' && "v4"[1] == '4';
    assert r.depends.Keys == {"v2", "v3", "v4"};
    assert Left(r, {"v3"}) == {"v2", "v4"};
    assert ReadySet(r, {"v3"}) == {"v2", "v4"};
    assert |{"v2", "v4"}| == 2;
    assert order[..2] == order && order[2..] == [];
    assert Tags(order) == {"v4", "v2"};
    assert Left(r, {"v3"} + {"v2", "v4"}) == {};
  }

  /** Yet not every pair is affected: a version 5 is applied a round later, so every run applies 2 before it. */
  lemma GapKeepsLater(r: Registry, some: seq<Tag>)
    requires r == Registry(map["v2" := [], "v3" := ["v2"], "v4" := ["v3"], "v5" := ["v4"]],
             map[2 := "v2", 3 := "v3", 4 := "v4", 5 := "v5"])
    requires Complete(r, {"v3"}, some)
    ensures !NoGap(r, 6, {"v3"}) && forall order {:trigger IsRun(r, {"v3"}, order)} ::
              IsRun(r, {"v3"}, order) ==> Precedes(order, "v2", "v5")
  {
    var tags := {"v3"};
    assert "v2"[1] == '2' && "v3"[1] == '3' && "v4"[1] == '4' && "v5"[1] == '5';
    assert Missing(r, tags, 2) && !Missing(r, tags, 3) && Missing(r, tags, 4) && Missing(r, tags, 5);
    assert Linked(r, 6) by {
      forall i {:trigger LinkedAt(r, i)} | 3 <= i < 6 ensures LinkedAt(r, i) { assert i == 3 || i == 4 || i == 5; }
    }
    LegacyRound(r, 6, tags, 3, 5);
    assert "v2" in ReadySet(r, tags);
    FirstRound(r, tags, "v2");
    hide RoundOf, IsRun, Precedes, Complete;
    RunsOrder(r, tags, some, "v2", "v5");
  }
}
