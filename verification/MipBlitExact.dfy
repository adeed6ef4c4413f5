/** What a chain of emulated blits leaves alone, and exactly which regions the emulation gets right. */
module MipBlitExact {
  import opened Common
  import opened MipBlit
  import opened BlitSemantics
  import opened MipBlitProofs

  // ---- texels outside every destination box ----------------------------------

  ghost predicate RegionWrites(dst: Img, r: Region, sub: Sub, p: Pos) {
    Targets(dst, r.dst, r.layerCount, sub) && Inside(r.d0, r.d1, p)
  }

  ghost predicate Holds<T>(w: World<T>, sub: Sub, p: Pos, value: T) {
    sub in w.texels && p in w.texels[sub] && w.texels[sub][p] == value
  }

  lemma IdealLeaves<T>(drv: Driver<T>, w: World<T>, src: Img, dst: Img, r: Region, filter: Filter, sub: Sub, p: Pos, value: T)
    requires src in w.info && dst in w.info && Holds(w, sub, p, value) && !RegionWrites(dst, r, sub, p)
    ensures Holds(IdealBlit(drv, w, src, dst, r, filter), sub, p, value)
  {
    IdealAt(drv, w, src, dst, r, filter, sub);
    hide IdealBlit, Inside, Restrict;
  }

  lemma {:induction false} RegionsLeave<T>(drv: Driver<T>, w: World<T>, c: Call, n: nat, sub: Sub, p: Pos, value: T)
    requires n <= |c.regions| == |c.pairs| && c.src in w.info && c.dst in w.info && Holds(w, sub, p, value)
    requires forall i :: 0 <= i < |c.regions| ==> !RegionWrites(c.dst, c.regions[i], sub, p)
    ensures Holds(IdealAll(drv, w, c.src, c.dst, Served(c, n), c.filter), sub, p, value)
  {
    if n > 0 {
      RegionsLeave(drv, w, c, n - 1, sub, p, value);
      var rs := Served(c, n);
      if rs != Served(c, n - 1) {
        assert rs[..|rs| - 1] == Served(c, n - 1) && rs[|rs| - 1] == c.regions[n - 1];
        var v := IdealAll(drv, w, c.src, c.dst, rs[..|rs| - 1], c.filter);
        hide IdealBlit, RegionWrites, Holds;
        IdealLeaves(drv, v, c.src, c.dst, c.regions[n - 1], c.filter, sub, p, value);
      }
    }
  }

  lemma {:induction false} CallsLeave<T>(drv: Driver<T>, w: World<T>, calls: seq<Call>, sub: Sub, p: Pos, value: T)
    requires ImagesKnown(w.info, calls) && Holds(w, sub, p, value)
    requires forall k, i :: 0 <= k < |calls| && 0 <= i < |calls[k].regions| ==> !RegionWrites(calls[k].dst, calls[k].regions[i], sub, p)
    ensures Holds(IdealCalls(drv, w, calls), sub, p, value)
    decreases |calls|
  {
    if calls != [] {
      var before, c := calls[..|calls| - 1], calls[|calls| - 1];
      CallsLeave(drv, w, before, sub, p, value);
      hide RegionWrites, Holds;
      RegionsLeave(drv, IdealCalls(drv, w, before), c, |c.regions|, sub, p, value);
    }
  }

  /** A texel of the app that no region's destination box covers has its first value when the chain ends. */
  lemma UntouchedStays<T>(drv: Driver<T>, apps: set<Img>, w: World<T>, calls: seq<Call>, sub: Sub, p: Pos, value: T)
    requires WellFormed(w) && Sized(w.info) && forall i :: 0 <= i < |calls| ==> CallOk(w.info, apps, calls[i])
    requires sub.img in apps && Holds(w, sub, p, value)
    requires forall k, i :: 0 <= k < |calls| && 0 <= i < |calls[k].regions| ==> !RegionWrites(calls[k].dst, calls[k].regions[i], sub, p)
    ensures ImagesKnown(w.info, calls) && Holds(Execute(drv, w, RecordedAll(calls)), sub, p, value)
  {
    ChainIsIdeal(drv, apps, w, calls);
    hide RegionWrites, CallOk, WellFormed;
    CallsLeave(drv, w, calls, sub, p, value);
  }

  /** Level 0 survives any chain that only writes other levels: the defect the emulation exists to avoid. */
  lemma BaseLevelStays<T>(drv: Driver<T>, apps: set<Img>, w: World<T>, calls: seq<Call>, sub: Sub)
    requires WellFormed(w) && Sized(w.info) && forall i :: 0 <= i < |calls| ==> CallOk(w.info, apps, calls[i])
    requires sub.img in apps && sub in w.texels && sub.level == 0
    requires forall k, i :: 0 <= k < |calls| && 0 <= i < |calls[k].regions| ==> calls[k].regions[i].dst.level != 0
    ensures ImagesKnown(w.info, calls) && sub in Execute(drv, w, RecordedAll(calls)).texels
    ensures forall p :: p in w.texels[sub] ==> Holds(Execute(drv, w, RecordedAll(calls)), sub, p, w.texels[sub][p])
  {
    ChainIsIdeal(drv, apps, w, calls);
    hide CallOk, WellFormed, Inside;
    IdealCallsKeys(drv, w, calls);
    forall p | p in w.texels[sub]
      ensures Holds(Execute(drv, w, RecordedAll(calls)), sub, p, w.texels[sub][p])
    {
      UntouchedStays(drv, apps, w, calls, sub, p, w.texels[sub][p]);
    }
  }

  lemma {:induction false} IdealAllKeys<T>(drv: Driver<T>, w: World<T>, src: Img, dst: Img, rs: seq<Region>, filter: Filter)
    requires src in w.info && dst in w.info
    ensures IdealAll(drv, w, src, dst, rs, filter).texels.Keys == w.texels.Keys
    decreases |rs|
  {
    if rs != [] {
      IdealAllKeys(drv, w, src, dst, rs[..|rs| - 1], filter);
      hide IdealBlit;
      IdealKeeps(drv, IdealAll(drv, w, src, dst, rs[..|rs| - 1], filter), src, dst, rs[|rs| - 1], filter);
    }
  }

  lemma {:induction false} IdealCallsKeys<T>(drv: Driver<T>, w: World<T>, calls: seq<Call>)
    requires ImagesKnown(w.info, calls)
    ensures IdealCalls(drv, w, calls).texels.Keys == w.texels.Keys
    decreases |calls|
  {
    if calls != [] {
      var before, c := calls[..|calls| - 1], calls[|calls| - 1];
      IdealCallsKeys(drv, w, before);
      IdealAllKeys(drv, IdealCalls(drv, w, before), c.src, c.dst, Served(c, |c.regions|), c.filter);
    }
  }

  // ---- which calls are served ------------------------------------------------

  /** Formats D16, D32, S8 and the three depth-stencil ones, by their VkFormat numbers. */
  predicate NotColour(format: nat) { format in {124, 126, 127, 128, 129, 130} }

  /** Everything the shim looks up on its way to the emulation is there, and the source is a colour image. */
  predicate AllThere(c: Call) {
    && c.gate && c.device && c.functions && c.srcInfo.Some? && c.dstInfo.Some? && !NotColour(c.srcInfo.value.format)
    && forall i :: 0 <= i < |c.pairs| ==> c.pairs[i].Some?
  }

  /** Some region of the call names a level other than 0. */
  predicate NamesLevel(c: Call) {
    exists i :: 0 <= i < |c.regions| && (c.regions[i].src.level > 0 || c.regions[i].dst.level > 0)
  }

  lemma {:induction false} AllServed(c: Call, n: nat)
    requires n <= |c.regions| == |c.pairs| && (AllThere(c) || !NamesLevel(c))
    ensures Served(c, n) == c.regions[..n]
  {
    if n > 0 {
      AllServed(c, n - 1);
      assert c.regions[..n] == c.regions[..n - 1] + [c.regions[n - 1]];
    }
  }

  /**
    A colour call with everything at hand, and any call at level 0, does to the app's images what the
    ideal blit of all its regions does, whatever the driver does where it is defective.
   */
  lemma ColourCallIsIdeal<T>(drv: Driver<T>, apps: set<Img>, w: World<T>, c: Call)
    requires WellFormed(w) && Sized(w.info) && CallOk(w.info, apps, c) && (AllThere(c) || !NamesLevel(c))
    ensures Same(apps, Execute(drv, w, Recorded(c)), IdealAll(drv, w, c.src, c.dst, c.regions, c.filter))
  {
    AllServed(c, |c.regions|);
    assert c.regions[..|c.regions|] == c.regions;
    hide CallOk, Recorded, Served, AllThere, NamesLevel, IdealAll;
    OneCall(drv, apps, w, w, c);
  }

  /** The ideal result of a chain of calls in which nothing is dropped. */
  ghost function IdealChain<T>(drv: Driver<T>, w: World<T>, calls: seq<Call>): (v: World<T>)
    requires ImagesKnown(w.info, calls)
    ensures v.info == w.info
    decreases |calls|
  {
    if calls == [] then w else
    var c := calls[|calls| - 1];
    IdealAll(drv, IdealChain(drv, w, calls[..|calls| - 1]), c.src, c.dst, c.regions, c.filter)
  }

  /** And so does any chain of such calls: all regions of all calls, in order. */
  lemma {:induction false} ColourChainIsIdeal<T>(drv: Driver<T>, apps: set<Img>, w: World<T>, calls: seq<Call>)
    requires WellFormed(w) && Sized(w.info)
    requires forall i :: 0 <= i < |calls| ==> CallOk(w.info, apps, calls[i]) && (AllThere(calls[i]) || !NamesLevel(calls[i]))
    ensures ImagesKnown(w.info, calls)
    ensures Same(apps, Execute(drv, w, RecordedAll(calls)), IdealChain(drv, w, calls))
  {
    ChainIsIdeal(drv, apps, w, calls);
    SameChain(drv, w, calls);
  }

  lemma {:induction false} SameChain<T>(drv: Driver<T>, w: World<T>, calls: seq<Call>)
    requires ImagesKnown(w.info, calls) && forall i :: 0 <= i < |calls| ==> AllThere(calls[i]) || !NamesLevel(calls[i])
    ensures IdealCalls(drv, w, calls) == IdealChain(drv, w, calls)
    decreases |calls|
  {
    if calls != [] {
      var c := calls[|calls| - 1];
      SameChain(drv, w, calls[..|calls| - 1]);
      AllServed(c, |c.regions|);
      assert c.regions[..|c.regions|] == c.regions;
    }
  }

  /** The first n regions, minus those whose scratch images could not be had. */
  function Backed(c: Call, n: nat): seq<Region>
    requires n <= |c.regions| == |c.pairs|
  {
    if n == 0 then [] else Backed(c, n - 1) + if c.pairs[n - 1].Some? then [c.regions[n - 1]] else []
  }

  lemma {:induction false} BackedServed(c: Call, n: nat)
    requires n <= |c.regions| == |c.pairs| && NamesLevel(c)
    requires c.gate && c.device && c.functions && c.srcInfo.Some? && c.dstInfo.Some? && !NotColour(c.srcInfo.value.format)
    ensures Served(c, n) == Backed(c, n)
  {
    if n > 0 {
      BackedServed(c, n - 1);
    }
  }

  /** Where some scratch images could not be had, exactly their regions are missing from the ideal result. */
  lemma PartialCallIsIdeal<T>(drv: Driver<T>, apps: set<Img>, w: World<T>, c: Call)
    requires WellFormed(w) && Sized(w.info) && CallOk(w.info, apps, c) && NamesLevel(c)
    requires c.gate && c.device && c.functions && c.srcInfo.Some? && c.dstInfo.Some? && !NotColour(c.srcInfo.value.format)
    ensures Same(apps, Execute(drv, w, Recorded(c)), IdealAll(drv, w, c.src, c.dst, Backed(c, |c.regions|), c.filter))
  {
    BackedServed(c, |c.regions|);
    hide CallOk, Recorded, Served, NamesLevel, IdealAll;
    OneCall(drv, apps, w, w, c);
  }

  lemma {:induction false} NothingEmitted(c: Call, n: nat)
    requires n <= |c.regions| == |c.pairs|
    ensures EmulatedAll(c, n) == [] <==> forall i :: 0 <= i < n ==> c.pairs[i].None?
  {
    if n > 0 {
      NothingEmitted(c, n - 1);
    }
  }

  /** A call that names a level reaches the driver with nothing exactly if something it needs is missing. */
  lemma DroppedCallIff(c: Call)
    requires |c.regions| == |c.pairs| && NamesLevel(c)
    ensures Recorded(c) == [] <==>
              || !c.gate || !c.device || !c.functions || c.srcInfo.None? || c.dstInfo.None? || NotColour(c.srcInfo.value.format)
              || forall i :: 0 <= i < |c.pairs| ==> c.pairs[i].None?
  {
    NothingEmitted(c, |c.regions|);
    hide EmulatedAll;
  }

  /** A call that names none reaches it as it came. */
  lemma LevelZeroPasses(c: Call)
    requires |c.regions| == |c.pairs| && !NamesLevel(c)
    ensures Recorded(c) == [Blit(c.src, c.dst, c.regions, c.filter)]
  {
  }

  // ---- exactly when the emulation is right -----------------------------------

  /** Whatever the driver does where it is defective and whatever the images hold, the region comes out as it should. */
  ghost predicate AlwaysIdeal(info: map<Img, Info>, apps: set<Img>, src: Img, dst: Img, r: Region, filter: Filter, p: Pair)
    requires src in info && dst in info
  {
    forall drv: Driver<int>, w: World<int> :: w.info == info && WellFormed(w) ==> Comes(drv, w, apps, src, dst, r, filter, p)
  }

  ghost predicate Comes(drv: Driver<int>, w: World<int>, apps: set<Img>, src: Img, dst: Img, r: Region, filter: Filter, p: Pair)
    requires src in w.info && dst in w.info
  {
    Agree(apps, Execute(drv, w, Emulated(src, dst, r, filter, Some(p))), IdealBlit(drv, w, src, dst, r, filter))
  }

  function Lost(): World<int> { World(map[], map[]) }

  /** A driver that loses everything on a bad command, and resamples to the destination's format number. */
  ghost function Lossy(): Driver<int> {
    Driver((s: Sampling, t: Texels<int>, p: Pos) => s.dstFormat,
           (w: World<int>, a: Img, b: Img, r: Region, f: Filter) => Lost(),
           (w: World<int>, c: Command) => Lost())
  }

  function Cells(e: Extent): set<Pos> {
    set x, y, z | 0 <= x < e.width && 0 <= y < e.height && 0 <= z < e.depth :: Pos(x, y, z)
  }

  function Subs(info: map<Img, Info>): set<Sub> {
    set img, level, layer | img in info && 0 <= level < info[img].levels && 0 <= layer < info[img].layers :: Sub(img, level, layer)
  }

  /** One image full of ones, every other full of zeros. */
  ghost function Uniform(info: map<Img, Info>, ones: Img): (w: World<int>)
    ensures w.info == info && WellFormed(w)
    ensures forall sub: Sub, p :: sub in w.texels && p in w.texels[sub] ==> w.texels[sub][p] == if sub.img == ones then 1 else 0
  {
    World(info, map sub | sub in Subs(info) ::
      map p | p in Cells(ExtentAt(info, sub.img, sub.level)) :: if sub.img == ones then 1 else 0)
  }

  lemma LostIsWrong(w: World<int>, apps: set<Img>, src: Img, dst: Img, r: Region, filter: Filter)
    requires WellFormed(w) && dst in apps && Legal(w.info, src, dst, r)
    ensures !Agree(apps, Lost(), IdealBlit(Lossy(), w, src, dst, r, filter))
  {
    Present(w, dst, r.dst, r.layerCount);
    assert Targets(dst, r.dst, r.layerCount, Sub(dst, r.dst.level, r.dst.base));
    IdealKeeps(Lossy(), w, src, dst, r, filter);
    hide IdealBlit, WellFormed, Legal;
    assert Sub(dst, r.dst.level, r.dst.base) !in Lost().texels;
    assert Sub(dst, r.dst.level, r.dst.base) in IdealBlit(Lossy(), w, src, dst, r, filter).texels.Keys;
  }

  /** The region's commands one by one. */
  lemma ThreeSteps(drv: Driver<int>, w: World<int>, src: Img, dst: Img, r: Region, filter: Filter, p: Pair)
    ensures var a := if r.src.level == 0 then w else DriverCopy(drv, w, InCopy(src, r.src, p.srcImg, r.s0, r.s1, r.layerCount));
            var b := DriverBlit(drv, a, MidSource(src, r, p), MidTarget(dst, r, p), MidRegion(r), filter);
            Execute(drv, w, Emulated(src, dst, r, filter, Some(p)))
            == if r.dst.level == 0 then b else DriverCopy(drv, b, OutCopy(dst, r.dst, p.dstImg, r.d0, r.d1, r.layerCount))
  {
    var ins, mid := CopyIn(src, r, p), MidBlit(src, dst, r, filter, p);
    var a := Execute(drv, w, ins);
    ExecuteNone(drv, w);
    if r.src.level != 0 {
      ExecuteOne(drv, w, [], ins[0]);
      assert ins == [ins[0]];
    }
    ExecuteOne(drv, w, ins, mid);
    BlitOne(drv, a, MidSource(src, r, p), MidTarget(dst, r, p), MidRegion(r), filter);
    hide Execute, DriverBlit, DriverCopy;
    if r.dst.level == 0 {
      assert Emulated(src, dst, r, filter, Some(p)) == ins + [mid];
    } else {
      var c := OutCopy(dst, r.dst, p.dstImg, r.d0, r.d1, r.layerCount);
      assert Emulated(src, dst, r, filter, Some(p)) == ins + [mid] + [c];
      ExecuteOne(drv, w, ins + [mid], c);
    }
  }

  /** Some command of the region is one the driver may get wrong. */
  ghost predicate Strays(info: map<Img, Info>, src: Img, dst: Img, r: Region)
    requires src in info && dst in info
  {
    || !SourceOk(info, src, r)
    || (r.dst.level != 0 && (r.layerCount != 1 || !Copyable(ExtentAt(info, dst, r.dst.level), r.d0, r.d1)))
  }

  lemma LossyBlit(w: World<int>, src: Img, dst: Img, r: Region, filter: Filter)
    requires r.src.level == 0 && r.dst.level == 0
    ensures var v := DriverBlit(Lossy(), w, src, dst, r, filter); (v == Lost() && !Legal(w.info, src, dst, r)) || v.info == w.info
    ensures !Legal(w.info, src, dst, r) ==> DriverBlit(Lossy(), w, src, dst, r, filter) == Lost()
    ensures w == Lost() ==> DriverBlit(Lossy(), w, src, dst, r, filter) == Lost()
  {
    hide Within, ExtentAt;
  }

  lemma LossyCopy(w: World<int>, c: Command)
    requires c.Copy?
    ensures !CopyLegal(w.info, c) ==> DriverCopy(Lossy(), w, c) == Lost()
    ensures w == Lost() ==> DriverCopy(Lossy(), w, c) == Lost()
    ensures DriverCopy(Lossy(), w, c) == Lost() || DriverCopy(Lossy(), w, c).info == w.info
  {
    hide Within, ExtentAt, Overlay;
  }

  lemma StraysLoses(apps: set<Img>, w: World<int>, src: Img, dst: Img, r: Region, filter: Filter, p: Pair)
    requires Ready(apps, w, src, dst, r, p) && Strays(w.info, src, dst, r)
    ensures Execute(Lossy(), w, Emulated(src, dst, r, filter, Some(p))) == Lost()
  {
    var drv := Lossy();
    var c, d := InCopy(src, r.src, p.srcImg, r.s0, r.s1, r.layerCount), OutCopy(dst, r.dst, p.dstImg, r.d0, r.d1, r.layerCount);
    var a := if r.src.level == 0 then w else DriverCopy(drv, w, c);
    var b := DriverBlit(drv, a, MidSource(src, r, p), MidTarget(dst, r, p), MidRegion(r), filter);
    ThreeSteps(drv, w, src, dst, r, filter, p);
    if r.src.level != 0 {
      StagingLegalIff(w.info, src, r.src, p.srcImg, r.s0, r.s1, r.layerCount);
      LossyCopy(w, c);
    }
    LossyBlit(a, MidSource(src, r, p), MidTarget(dst, r, p), MidRegion(r), filter);
    if r.dst.level != 0 {
      StagingLegalIff(w.info, dst, r.dst, p.dstImg, r.d0, r.d1, r.layerCount);
      LossyCopy(b, d);
    }
    hide DriverCopy, DriverBlit, Execute, Emulated, Copyable, WellFormed, Within;
  }

  ghost function AfterIn(w: World<int>, src: Img, r: Region, p: Pair): World<int> {
    if r.src.level == 0 then w else DriverCopy(Lossy(), w, InCopy(src, r.src, p.srcImg, r.s0, r.s1, 1))
  }

  /** A copy in that stays in bounds touches neither the destination nor the second scratch. */
  lemma InLeaves(apps: set<Img>, w: World<int>, src: Img, dst: Img, r: Region, p: Pair)
    requires Ready(apps, w, src, dst, r, p) && SourceOk(w.info, src, r)
    ensures var a := AfterIn(w, src, r, p);
            && a.info == w.info && WellFormed(a) && a.texels.Keys == w.texels.Keys
            && forall sub: Sub :: sub in w.texels && sub.img != p.srcImg ==> a.texels[sub] == w.texels[sub]
  {
    if r.src.level != 0 {
      var c := InCopy(src, r.src, p.srcImg, r.s0, r.s1, 1);
      StagingLegalIff(w.info, src, r.src, p.srcImg, r.s0, r.s1, 1);
      hide Copyable, Legal, WellFormed, CopyExtent, DriverCopy, ExtentAt;
      CopyEffect(Lossy(), w, c);
      KeepsForm(w, DriverCopy(Lossy(), w, c));
    }
  }

  /** The first texel of a box that is in order, or flat with room, on each axis. */
  lemma FirstTexel<T>(w: World<T>, sub: Sub, a: Pos, b: Pos)
    requires WellFormed(w) && sub in w.texels && sub.img in w.info
    requires Copyable(ExtentAt(w.info, sub.img, sub.level), a, b)
    requires Within(ExtentAt(w.info, sub.img, sub.level), a) && Within(ExtentAt(w.info, sub.img, sub.level), b)
    ensures a in w.texels[sub] && (Inside(a, b, a) <==> InOrder(a, b))
  {
    assert a in w.texels[sub] <==> Inside(Pos(0, 0, 0), Corner(Pos(0, 0, 0), ExtentAt(w.info, sub.img, sub.level)), a);
    hide WellFormed, ExtentAt;
  }

  /** What a Lossy blit puts at the first texel of a single-layer destination box. */
  lemma FirstBlitted(w: World<int>, src: Img, dst: Img, r: Region, filter: Filter, value: int)
    requires WellFormed(w) && src in w.info && dst in w.info && r.layerCount == 1 && HasLayers(w.info, dst, r.dst, 1)
    requires var e := ExtentAt(w.info, dst, r.dst.level); Copyable(e, r.d0, r.d1) && Within(e, r.d0) && Within(e, r.d1)
    requires Holds(w, Sub(dst, r.dst.level, r.dst.base), r.d0, value)
    ensures Holds(IdealBlit(Lossy(), w, src, dst, r, filter), Sub(dst, r.dst.level, r.dst.base), r.d0,
                  if InOrder(r.d0, r.d1) then w.info[dst].format else value)
  {
    var to := Sub(dst, r.dst.level, r.dst.base);
    FirstTexel(w, to, r.d0, r.d1);
    assert Targets(dst, r.dst, 1, to);
    IdealAt(Lossy(), w, src, dst, r, filter, to);
    hide IdealBlit, WellFormed, ExtentAt, Inside, Copyable, Within, Restrict;
  }

  /** An in-bounds single-layer copy carries the first texel of its box. */
  lemma FirstCopied(w: World<int>, c: Command, value: int)
    requires c.Copy? && c.layerCount == 1 && CopyLegal(w.info, c) && WellFormed(w)
    requires c.extent.width > 0 && c.extent.height > 0 && c.extent.depth > 0
    requires Holds(w, Sub(c.src, c.sl.level, c.sl.base), c.offset, value)
    ensures Holds(DriverCopy(Lossy(), w, c), Sub(c.dst, c.dl.level, c.dl.base), c.offset, value)
  {
    var to := Sub(c.dst, c.dl.level, c.dl.base);
    CopyEffect(Lossy(), w, c);
    FirstTexel(w, to, c.offset, Corner(c.offset, c.extent));
    hide DriverCopy, WellFormed, CopyLegal;
    assert Inside(c.offset, Corner(c.offset, c.extent), c.offset);
    hide Inside, Corner;
  }

  /** The staged destination is reachable, but it is flat on some axis or of another format. */
  lemma WrongTexel(apps: set<Img>, w: World<int>, src: Img, dst: Img, r: Region, filter: Filter, p: Pair)
    requires Ready(apps, w, src, dst, r, p) && !Strays(w.info, src, dst, r) && !TargetOk(w.info, src, dst, r)
    requires w == Uniform(w.info, p.dstImg)
    ensures !Comes(Lossy(), w, apps, src, dst, r, filter, p)
  {
    var a, d := AfterIn(w, src, r, p), OutCopy(dst, r.dst, p.dstImg, r.d0, r.d1, 1);
    var m, q := MidSource(src, r, p), MidRegion(r);
    var b := DriverBlit(Lossy(), a, m, p.dstImg, q, filter);
    var scratch, to := Sub(p.dstImg, 0, 0), Sub(dst, r.dst.level, r.dst.base);
    var put := if InOrder(r.d0, r.d1) then w.info[src].format else 1;
    ThreeSteps(Lossy(), w, src, dst, r, filter, p);
    Settings(apps, w, src, dst, r, p);
    hide Ready, Strays, Uniform, Execute, Emulated, CopyExtent, CopyLegal, DriverCopy, WellFormed, Legal, ExtentAt, Within, Copyable;
    InLeaves(apps, w, src, dst, r, p);
    MidFits(apps, w, src, dst, r, p);
    FirstBlitted(a, m, p.dstImg, q, filter, 1);
    FirstBlitted(w, src, dst, r, filter, 0);
    IdealKeeps(Lossy(), a, m, p.dstImg, q, filter);
    FirstCopied(b, d, put);
    hide IdealBlit, DriverBlit, InOrder;
    assert Holds(IdealBlit(Lossy(), w, src, dst, r, filter), to, r.d0, if InOrder(r.d0, r.d1) then w.info[dst].format else 0);
    assert Holds(Execute(Lossy(), w, Emulated(src, dst, r, filter, Some(p))), to, r.d0, put);
  }

  lemma Settings(apps: set<Img>, w: World<int>, src: Img, dst: Img, r: Region, p: Pair)
    requires Ready(apps, w, src, dst, r, p) && !Strays(w.info, src, dst, r) && !TargetOk(w.info, src, dst, r)
    requires w == Uniform(w.info, p.dstImg)
    ensures src in w.info && dst in w.info && p.dstImg in w.info && dst in apps && r.layerCount == 1 && r.dst.level != 0
    ensures SourceOk(w.info, src, r) && WellFormed(w) && dst != p.dstImg && p.srcImg != p.dstImg
    ensures w.info[p.dstImg].format == w.info[src].format
    ensures HasLayers(w.info, p.dstImg, Layers(0, 0), 1) && HasLayers(w.info, dst, r.dst, 1)
    ensures CopyLegal(w.info, OutCopy(dst, r.dst, p.dstImg, r.d0, r.d1, 1))
    ensures var e := ExtentAt(w.info, dst, r.dst.level);
            ExtentAt(w.info, p.dstImg, 0) == e && Copyable(e, r.d0, r.d1) && Within(e, r.d0) && Within(e, r.d1)
    ensures var x := CopyExtent(r.d0, r.d1); x.width > 0 && x.height > 0 && x.depth > 0
    ensures Holds(w, Sub(p.dstImg, 0, 0), r.d0, 1) && Holds(w, Sub(dst, r.dst.level, r.dst.base), r.d0, 0)
  {
    var scratch, to := Sub(p.dstImg, 0, 0), Sub(dst, r.dst.level, r.dst.base);
    StagingLegalIff(w.info, dst, r.dst, p.dstImg, r.d0, r.d1, 1);
    ScratchExtent(w.info, dst, r.dst, p.dstImg);
    Present(w, p.dstImg, Layers(0, 0), 1);
    Present(w, dst, r.dst, 1);
    assert Targets(p.dstImg, Layers(0, 0), 1, scratch) && Targets(dst, r.dst, 1, to);
    hide WellFormed, ExtentAt, Copyable, Within, CopyLegal;
    FirstTexel(w, scratch, r.d0, r.d1);
    FirstTexel(w, to, r.d0, r.d1);
  }

  /** The emulation of a legal region is right for every driver and every content exactly when it is Emulable. */
  lemma EmulationExact(info: map<Img, Info>, apps: set<Img>, src: Img, dst: Img, r: Region, filter: Filter, p: Pair)
    requires Sized(info) && src in apps && dst in apps && Legal(info, src, dst, r) && Staged(info, apps, src, dst, r, p)
    ensures AlwaysIdeal(info, apps, src, dst, r, filter, p) <==> Emulable(info, src, dst, r)
  {
    hide Staged, Sized, SourceOk, TargetOk, WellFormed, Comes;
    if Emulable(info, src, dst, r) {
      forall drv: Driver<int>, w: World<int> | w.info == info && WellFormed(w)
        ensures Comes(drv, w, apps, src, dst, r, filter, p)
      {
        RightWhenEmulable(drv, w, apps, src, dst, r, filter, p);
      }
    } else {
      var w := Uniform(info, p.dstImg);
      NotAlways(apps, w, src, dst, r, filter, p);
    }
  }

  lemma RightWhenEmulable(drv: Driver<int>, w: World<int>, apps: set<Img>, src: Img, dst: Img, r: Region, filter: Filter, p: Pair)
    requires Ready(apps, w, src, dst, r, p) && Emulable(w.info, src, dst, r)
    ensures Comes(drv, w, apps, src, dst, r, filter, p)
  {
    EmulatedIsIdeal(drv, apps, w, src, dst, r, filter, p);
  }

  lemma NotAlways(apps: set<Img>, w: World<int>, src: Img, dst: Img, r: Region, filter: Filter, p: Pair)
    requires Ready(apps, w, src, dst, r, p) && !Emulable(w.info, src, dst, r) && w == Uniform(w.info, p.dstImg)
    ensures !Comes(Lossy(), w, apps, src, dst, r, filter, p)
  {
    if Strays(w.info, src, dst, r) {
      StraysLoses(apps, w, src, dst, r, filter, p);
      LostIsWrong(w, apps, src, dst, r, filter);
    } else {
      hide Ready;
      WrongTexel(apps, w, src, dst, r, filter, p);
    }
  }

  // ---- a blit the API allows and the emulation gets wrong --------------------

  /** A 4x4 image with two levels, and the two scratch images its blit from level 0 to level 1 is given. */
  function SmallInfo(): map<Img, Info> {
    map[1 := Info(37, Extent(4, 4, 1), 2, 1), 8 := Info(37, Extent(4, 4, 1), 1, 1), 9 := Info(37, Extent(2, 2, 1), 1, 1)]
  }

  /** Level 0 to level 1, with the destination's x corners given in the order named. */
  function HalfSize(x0: int, x1: int): Region {
    Region(Layers(0, 0), Pos(0, 0, 0), Pos(4, 4, 1), Layers(1, 0), Pos(x0, 0, 0), Pos(x1, 2, 1), 1)
  }

  /** Halving that image comes out right; halving it mirrored is legal and does not. */
  lemma MirroredHalf(filter: Filter)
    ensures AlwaysIdeal(SmallInfo(), {1}, 1, 1, HalfSize(0, 2), filter, Pair(8, 9))
    ensures Legal(SmallInfo(), 1, 1, HalfSize(2, 0)) && !AlwaysIdeal(SmallInfo(), {1}, 1, 1, HalfSize(2, 0), filter, Pair(8, 9))
  {
    SmallLevels();
    assert Staged(SmallInfo(), {1}, 1, 1, HalfSize(0, 2), Pair(8, 9)) && Legal(SmallInfo(), 1, 1, HalfSize(0, 2));
    EmulationExact(SmallInfo(), {1}, 1, 1, HalfSize(0, 2), filter, Pair(8, 9));
    assert Staged(SmallInfo(), {1}, 1, 1, HalfSize(2, 0), Pair(8, 9)) && Legal(SmallInfo(), 1, 1, HalfSize(2, 0));
    EmulationExact(SmallInfo(), {1}, 1, 1, HalfSize(2, 0), filter, Pair(8, 9));
    hide AlwaysIdeal;
  }

  lemma SmallLevels()
    ensures LevelExtent(Extent(4, 4, 1), 0) == Extent(4, 4, 1) && LevelExtent(Extent(4, 4, 1), 1) == Extent(2, 2, 1)
  {
    assert Pow2(0) == 1 && Pow2(1) == 2;
  }
}
