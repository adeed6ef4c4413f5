/**
  The recorded commands, run on the defective driver, do to the app's images exactly what the ideal
  blits do, whatever the driver does where it is defective.
 */
module MipBlitProofs {
  import opened Common
  import opened MipBlit
  import opened BlitSemantics

  /** a and b hold the same texels in every image of apps. */
  ghost predicate Agree<T>(apps: set<Img>, a: World<T>, b: World<T>) {
    && (forall sub: Sub :: sub.img in apps ==> (sub in a.texels <==> sub in b.texels))
    && (forall sub: Sub :: sub.img in apps && sub in a.texels && sub in b.texels ==> a.texels[sub] == b.texels[sub])
  }

  predicate InOrder(a: Pos, b: Pos) { a.x < b.x && a.y < b.y && a.z < b.z }

  /** Each axis is in order, or flat with room for the one texel the copy then moves. */
  predicate Copyable(e: Extent, a: Pos, b: Pos) {
    && (a.x < b.x || a.x == b.x < e.width)
    && (a.y < b.y || a.y == b.y < e.height)
    && (a.z < b.z || a.z == b.z < e.depth)
  }

  /** A staged source is one layer, in order or flat on each axis. */
  predicate SourceOk(info: map<Img, Info>, src: Img, r: Region)
    requires src in info
  {
    r.src.level != 0 ==> r.layerCount == 1 && Copyable(ExtentAt(info, src, r.src.level), r.s0, r.s1)
  }

  /** A staged destination is one layer, a box in order on every axis, in the source's own format. */
  predicate TargetOk(info: map<Img, Info>, src: Img, dst: Img, r: Region)
    requires src in info && dst in info
  {
    r.dst.level != 0 ==> r.layerCount == 1 && InOrder(r.d0, r.d1) && info[src].format == info[dst].format
  }

  /** The caller-visible condition under which the emulation is right. */
  predicate Emulable(info: map<Img, Info>, src: Img, dst: Img, r: Region)
    requires src in info && dst in info
  {
    SourceOk(info, src, r) && TargetOk(info, src, dst, r)
  }

  /** Image sizes are 32-bit. */
  predicate Sized(info: map<Img, Info>) {
    forall img :: img in info ==> && 0 <= info[img].extent.width < UINT32 && 0 <= info[img].extent.height < UINT32
                                  && 0 <= info[img].extent.depth < UINT32
  }

  /** A scratch pair as the table hands it out: two images of its own, of the sizes asked for. */
  predicate Staged(info: map<Img, Info>, apps: set<Img>, src: Img, dst: Img, r: Region, p: Pair)
    requires src in info && dst in info
  {
    && p.srcImg in info && p.dstImg in info && p.srcImg != p.dstImg && p.srcImg !in apps && p.dstImg !in apps
    && (info[p.srcImg], info[p.dstImg]) == Wanted(info[src], info[dst], r)
  }

  lemma MipExtBounds(base: int, level: nat)
    requires 0 <= base < UINT32
    ensures MipExt(base, level) < UINT32 && MipExt(base, 0) == if base == 0 then 1 else base
    ensures MipExt(MipExt(base, level), 0) == MipExt(base, level)
  {
    assert Pow2(0) == 1;
    if base / Pow2(level) > 0 {
      assert base / Pow2(level) <= base;
    }
  }

  lemma Span(a: int, b: int, e: int)
    requires 0 <= a <= e < UINT32 && 0 <= b <= e
    ensures a < b ==> CopySpan(a, b) == b - a
    ensures a == b ==> CopySpan(a, b) == 1
    ensures a > b ==> a + CopySpan(a, b) > e
  {
    if a > b {
      assert (b - a) % UINT32 == b - a + UINT32;
    }
  }

  /** A stage copies the same box between a level and the scratch that has its size. */
  ghost predicate Mirrors(info: map<Img, Info>, img: Img, l: Layers, scratch: Img) {
    && img in info && scratch in info && img != scratch && Sized(info)
    && info[scratch].levels == 1 && info[scratch].layers == 1 && info[scratch].extent == ExtentAt(info, img, l.level)
  }

  lemma ScratchExtent(info: map<Img, Info>, img: Img, l: Layers, scratch: Img)
    requires Mirrors(info, img, l, scratch)
    ensures ExtentAt(info, scratch, 0) == ExtentAt(info, img, l.level)
    ensures var e := ExtentAt(info, img, l.level); e.width < UINT32 && e.height < UINT32 && e.depth < UINT32
  {
    var e := info[img].extent;
    MipExtBounds(e.width, l.level);
    MipExtBounds(e.height, l.level);
    MipExtBounds(e.depth, l.level);
  }

  lemma SpanFits(a: Pos, b: Pos, e: Extent)
    requires Within(e, a) && Within(e, b) && e.width < UINT32 && e.height < UINT32 && e.depth < UINT32
    ensures Within(e, Corner(a, CopyExtent(a, b))) <==> Copyable(e, a, b)
    ensures InOrder(a, b) ==> Corner(a, CopyExtent(a, b)) == b && Copyable(e, a, b)
    ensures Copyable(e, a, b) ==> forall p :: Inside(a, b, p) ==> Inside(a, Corner(a, CopyExtent(a, b)), p)
  {
    Span(a.x, b.x, e.width);
    Span(a.y, b.y, e.height);
    Span(a.z, b.z, e.depth);
  }

  function InCopy(img: Img, l: Layers, scratch: Img, a: Pos, b: Pos, n: nat): Command {
    Copy(img, l, scratch, Layers(0, 0), a, CopyExtent(a, b), n)
  }

  function OutCopy(img: Img, l: Layers, scratch: Img, a: Pos, b: Pos, n: nat): Command {
    Copy(scratch, Layers(0, 0), img, l, a, CopyExtent(a, b), n)
  }

  /** Exactly when the staging copies stay in bounds. */
  lemma StagingLegalIff(info: map<Img, Info>, img: Img, l: Layers, scratch: Img, a: Pos, b: Pos, n: nat)
    requires Mirrors(info, img, l, scratch) && n > 0 && HasLayers(info, img, l, n)
    requires Within(ExtentAt(info, img, l.level), a) && Within(ExtentAt(info, img, l.level), b)
    ensures CopyLegal(info, InCopy(img, l, scratch, a, b, n)) <==> n == 1 && Copyable(ExtentAt(info, img, l.level), a, b)
    ensures CopyLegal(info, OutCopy(img, l, scratch, a, b, n)) <==> n == 1 && Copyable(ExtentAt(info, img, l.level), a, b)
  {
    ScratchExtent(info, img, l, scratch);
    SpanFits(a, b, ExtentAt(info, img, l.level));
    hide CopyExtent, Corner, Copyable, Within, LevelExtent;
  }

  /** Everything outside one subresource is kept. */
  ghost predicate OnlySub<T>(w: World<T>, v: World<T>, sub: Sub) {
    && v.info == w.info && v.texels.Keys == w.texels.Keys
    && forall x :: x in w.texels && x != sub ==> v.texels[x] == w.texels[x]
  }

  lemma CopyEffect<T>(drv: Driver<T>, w: World<T>, c: Command)
    requires c.Copy? && c.layerCount == 1 && CopyLegal(w.info, c) && WellFormed(w)
    ensures var v := DriverCopy(drv, w, c);
            var from, to := Sub(c.src, c.sl.level, c.sl.base), Sub(c.dst, c.dl.level, c.dl.base);
            && OnlySub(w, v, to) && to in w.texels && from in w.texels
            && v.texels[to] == Overlay(w.texels[from], w.texels[to], c.offset, Corner(c.offset, c.extent))
            && v.texels[to].Keys == w.texels[to].Keys
  {
    var v := DriverCopy(drv, w, c);
    var from, to := Sub(c.src, c.sl.level, c.sl.base), Sub(c.dst, c.dl.level, c.dl.base);
    Present(w, c.src, c.sl, 1);
    Present(w, c.dst, c.dl, 1);
    assert Targets(c.dst, c.dl, 1, to) && Targets(c.src, c.sl, 1, from);
    CopyFrame(drv, w, c);
    hide DriverCopy, WellFormed, Overlay, Corner, CopyLegal;
    CopyAt(drv, w, c, to);
    OverlayKeys(w.texels[from], w.texels[to], c.offset, Corner(c.offset, c.extent));
    forall x | x in w.texels && x != to
      ensures v.texels[x] == w.texels[x]
    {
      CopyAt(drv, w, c, x);
    }
  }

  lemma CopyFrame<T>(drv: Driver<T>, w: World<T>, c: Command)
    requires c.Copy? && CopyLegal(w.info, c)
    ensures DriverCopy(drv, w, c).info == w.info && DriverCopy(drv, w, c).texels.Keys == w.texels.Keys
  {
    hide Overlay, Corner, CopyLegal;
  }

  lemma CopyAt<T>(drv: Driver<T>, w: World<T>, c: Command, sub: Sub)
    requires c.Copy? && CopyLegal(w.info, c) && sub in w.texels
    ensures var v := DriverCopy(drv, w, c);
            && sub in v.texels
            && v.texels[sub] == if !Targets(c.dst, c.dl, c.layerCount, sub) then w.texels[sub] else
                                Overlay(At(w, Sub(c.src, c.sl.level, c.sl.base + sub.layer - c.dl.base)), w.texels[sub],
                                        c.offset, Corner(c.offset, c.extent))
  {
    hide Overlay, Corner, CopyLegal;
  }

  lemma Present<T>(w: World<T>, img: Img, l: Layers, n: nat)
    requires WellFormed(w) && HasLayers(w.info, img, l, n)
    ensures forall sub :: Targets(img, l, n, sub) ==> sub in w.texels
  {
    forall sub | Targets(img, l, n, sub)
      ensures sub in w.texels
    {
      assert HasLayers(w.info, sub.img, Layers(sub.level, sub.layer), 1);
    }
  }

  lemma OverlayKeys<T>(from: Texels<T>, onto: Texels<T>, a: Pos, b: Pos)
    ensures Overlay(from, onto, a, b).Keys == onto.Keys
  {
  }

  lemma KeepsForm<T>(w: World<T>, v: World<T>)
    requires WellFormed(w) && v.info == w.info && v.texels.Keys == w.texels.Keys
    requires forall x :: x in w.texels ==> v.texels[x].Keys == w.texels[x].Keys
    ensures WellFormed(v)
  {
    forall sub, p | sub in v.texels
      ensures p in v.texels[sub] <==> Inside(Pos(0, 0, 0), Corner(Pos(0, 0, 0), ExtentAt(v.info, sub.img, sub.level)), p)
    {
      assert p in v.texels[sub] <==> p in v.texels[sub].Keys;
      assert p in w.texels[sub] <==> p in w.texels[sub].Keys;
    }
    assert forall sub :: sub in v.texels <==> sub in w.texels.Keys;
  }

  // ---- the three stages of one region ----------------------------------------

  /** One region of one call against a world that has its images and its scratch. */
  ghost predicate Ready<T>(apps: set<Img>, w: World<T>, src: Img, dst: Img, r: Region, p: Pair) {
    && WellFormed(w) && Sized(w.info) && src in apps && dst in apps && Legal(w.info, src, dst, r)
    && Staged(w.info, apps, src, dst, r, p)
  }

  /** The image and first layer the middle blit reads from and writes to. */
  function MidSource(src: Img, r: Region, p: Pair): Img { if r.src.level == 0 then src else p.srcImg }
  function MidTarget(dst: Img, r: Region, p: Pair): Img { if r.dst.level == 0 then dst else p.dstImg }

  /** Layer i of a region's source. */
  function SourceLayer(img: Img, l: Layers, i: nat): Sub { Sub(img, l.level, l.base + i) }

  lemma ExecuteOne<T>(drv: Driver<T>, w: World<T>, cs: seq<Command>, c: Command)
    ensures Execute(drv, w, cs + [c]) == Run(drv, Execute(drv, w, cs), c) && Execute(drv, w, [c]) == Run(drv, w, c)
  {
    assert (cs + [c])[..|cs|] == cs;
    assert [c][..0] == [] && Execute(drv, w, []) == w;
  }

  lemma {:induction false} ExecuteAppend<T>(drv: Driver<T>, w: World<T>, a: seq<Command>, b: seq<Command>)
    ensures Execute(drv, w, a + b) == Execute(drv, Execute(drv, w, a), b)
    decreases |b|
  {
    if b == [] {
      assert a + b == a;
    } else {
      var c := b[|b| - 1];
      ExecuteAppend(drv, w, a, b[..|b| - 1]);
      assert (a + b)[..|a + b| - 1] == a + b[..|b| - 1];
    }
  }

  /** After the copy in, the middle blit's source box holds what the requested level holds. */
  ghost predicate SourceReady<T>(apps: set<Img>, w: World<T>, v: World<T>, src: Img, r: Region, p: Pair) {
    && v.info == w.info && WellFormed(v) && Agree(apps, v, w)
    && SameBox(w, src, r, v, MidSource(src, r, p), MidRegion(r))
  }

  /** Every source layer of q in v holds, in the source box, what that of r in w holds. */
  ghost predicate SameBox<T>(w: World<T>, src: Img, r: Region, v: World<T>, m: Img, q: Region) {
    forall i: nat :: i < r.layerCount ==> BoxOf(v, m, q, i) == BoxOf(w, src, r, i)
  }

  ghost function BoxOf<T>(w: World<T>, src: Img, r: Region, i: nat): Texels<T> {
    Restrict(At(w, SourceLayer(src, r.src, i)), r.s0, r.s1)
  }

  lemma StageIn<T>(drv: Driver<T>, apps: set<Img>, w: World<T>, src: Img, dst: Img, r: Region, p: Pair)
    requires Ready(apps, w, src, dst, r, p) && Emulable(w.info, src, dst, r)
    ensures SourceReady(apps, w, Execute(drv, w, CopyIn(src, r, p)), src, r, p)
  {
    if r.src.level == 0 {
      assert Execute(drv, w, []) == w;
    } else {
      var c := InCopy(src, r.src, p.srcImg, r.s0, r.s1, 1);
      assert CopyIn(src, r, p) == [c];
      ExecuteOne(drv, w, [], c);
      StageInLegal(apps, w, src, dst, r, p);
      hide Execute, DriverCopy, CopyLegal, Ready, Emulable, WellFormed, Inside, CopyExtent, Corner, Agree, Restrict, ExtentAt;
      CopiedIn(drv, apps, w, c, r.s0, r.s1);
    }
  }

  lemma StageInLegal<T>(apps: set<Img>, w: World<T>, src: Img, dst: Img, r: Region, p: Pair)
    requires Ready(apps, w, src, dst, r, p) && Emulable(w.info, src, dst, r) && r.src.level != 0
    ensures var c := InCopy(src, r.src, p.srcImg, r.s0, r.s1, 1);
            && r.layerCount == 1 && WellFormed(w) && p.srcImg !in apps && CopyLegal(w.info, c)
            && ExtentAt(w.info, p.srcImg, 0) == ExtentAt(w.info, src, r.src.level)
            && forall q :: Inside(r.s0, r.s1, q) ==> Inside(r.s0, Corner(r.s0, CopyExtent(r.s0, r.s1)), q)
  {
    hide WellFormed, Inside, CopyExtent, Corner, Copyable, CopyLegal, LevelExtent;
    StagingLegalIff(w.info, src, r.src, p.srcImg, r.s0, r.s1, 1);
    ScratchExtent(w.info, src, r.src, p.srcImg);
    SpanFits(r.s0, r.s1, ExtentAt(w.info, src, r.src.level));
  }

  lemma CopiedIn<T>(drv: Driver<T>, apps: set<Img>, w: World<T>, c: Command, a: Pos, b: Pos)
    requires c.Copy? && c.layerCount == 1 && CopyLegal(w.info, c) && WellFormed(w) && c.dst !in apps
    requires c.dl == Layers(0, 0) && ExtentAt(w.info, c.dst, 0) == ExtentAt(w.info, c.src, c.sl.level)
    requires forall p :: Inside(a, b, p) ==> Inside(c.offset, Corner(c.offset, c.extent), p)
    ensures var v := DriverCopy(drv, w, c);
            && v.info == w.info && WellFormed(v) && Agree(apps, v, w)
            && Restrict(At(v, Sub(c.dst, 0, 0)), a, b) == Restrict(At(w, Sub(c.src, c.sl.level, c.sl.base)), a, b)
  {
    var v := DriverCopy(drv, w, c);
    CopyEffect(drv, w, c);
    var from, to := Sub(c.src, c.sl.level, c.sl.base), Sub(c.dst, 0, 0);
    hide DriverCopy, CopyLegal, ExtentAt;
    KeepsForm(w, v);
    assert forall p :: p in w.texels[to] <==> p in w.texels[from];
    hide WellFormed;
    RestrictOverlay(w.texels[from], w.texels[to], c.offset, Corner(c.offset, c.extent), a, b);
  }

  lemma RestrictOverlay<T>(from: Texels<T>, onto: Texels<T>, a: Pos, b: Pos, c: Pos, d: Pos)
    requires forall p :: p in onto <==> p in from
    requires forall p :: Inside(c, d, p) ==> Inside(a, b, p)
    ensures Restrict(Overlay(from, onto, a, b), c, d) == Restrict(from, c, d)
  {
    hide Inside;
  }

  lemma BlitOne<T>(drv: Driver<T>, w: World<T>, src: Img, dst: Img, r: Region, filter: Filter)
    ensures Run(drv, w, Blit(src, dst, [r], filter)) == DriverBlit(drv, w, src, dst, r, filter)
  {
    assert [r][..0] == [] && BlitAll(drv, w, src, dst, [], filter) == w;
  }

  /** The middle blit is one the driver gets right. */
  lemma MidFits<T>(apps: set<Img>, w: World<T>, src: Img, dst: Img, r: Region, p: Pair)
    requires Ready(apps, w, src, dst, r, p) && (r.src.level != 0 || r.dst.level != 0 ==> r.layerCount == 1)
    ensures MidSource(src, r, p) in w.info && MidTarget(dst, r, p) in w.info
    ensures Legal(w.info, MidSource(src, r, p), MidTarget(dst, r, p), MidRegion(r))
  {
    if r.src.level != 0 {
      ScratchExtent(w.info, src, r.src, p.srcImg);
    }
    if r.dst.level != 0 {
      ScratchExtent(w.info, dst, r.dst, p.dstImg);
    }
    hide LevelExtent, Within, WellFormed;
  }

  lemma MidLegal<T>(apps: set<Img>, w: World<T>, src: Img, dst: Img, r: Region, filter: Filter, p: Pair)
    requires Ready(apps, w, src, dst, r, p) && Emulable(w.info, src, dst, r)
    ensures MidSource(src, r, p) in w.info && MidTarget(dst, r, p) in w.info
    ensures Legal(w.info, MidSource(src, r, p), MidTarget(dst, r, p), MidRegion(r))
    ensures SamplingOf(w.info, MidSource(src, r, p), MidTarget(dst, r, p), MidRegion(r), filter)
         == SamplingOf(w.info, src, dst, r, filter)
  {
    MidFits(apps, w, src, dst, r, p);
    hide LevelExtent, Copyable, InOrder, Within, WellFormed, Legal;
  }

  lemma ResampledFrom<T>(drv: Driver<T>, s: Sampling, f: Texels<T>, g: Texels<T>, onto: Texels<T>)
    requires Restrict(f, s.s0, s.s1) == Restrict(g, s.s0, s.s1)
    ensures Resampled(drv, s, f, onto) == Resampled(drv, s, g, onto)
    ensures Resampled(drv, s, f, onto).Keys == onto.Keys
  {
    hide Restrict;
  }

  ghost predicate EachKeyed<T>(w: World<T>, v: World<T>) {
    && v.info == w.info && v.texels.Keys == w.texels.Keys
    && forall x :: x in w.texels ==> v.texels[x].Keys == w.texels[x].Keys
  }

  lemma IdealKeeps<T>(drv: Driver<T>, w: World<T>, src: Img, dst: Img, r: Region, filter: Filter)
    requires src in w.info && dst in w.info
    ensures EachKeyed(w, IdealBlit(drv, w, src, dst, r, filter))
    ensures WellFormed(w) ==> WellFormed(IdealBlit(drv, w, src, dst, r, filter))
  {
    var v := IdealBlit(drv, w, src, dst, r, filter);
    hide WellFormed, Resampled;
    forall x | x in w.texels
      ensures v.texels[x].Keys == w.texels[x].Keys
    {
      if Targets(dst, r.dst, r.layerCount, x) {
        var from := At(w, Sub(src, r.src.level, r.src.base + x.layer - r.dst.base));
        ResampledFrom(drv, SamplingOf(w.info, src, dst, r, filter), from, from, w.texels[x]);
      }
    }
    assert v.texels.Keys == w.texels.Keys;
    if WellFormed(w) {
      KeepsForm(w, v);
    }
  }

  /** Destination level 0: the middle blit writes the app's image directly. */
  lemma DirectBlit<T>(drv: Driver<T>, apps: set<Img>, w: World<T>, v: World<T>, src: Img, dst: Img, r: Region, filter: Filter, p: Pair)
    requires Ready(apps, w, src, dst, r, p) && Emulable(w.info, src, dst, r) && SourceReady(apps, w, v, src, r, p)
    requires r.dst.level == 0
    ensures src in w.info && dst in w.info
    ensures var u := DriverBlit(drv, v, MidSource(src, r, p), dst, MidRegion(r), filter);
            Agree(apps, u, IdealBlit(drv, w, src, dst, r, filter)) && WellFormed(u) && u.info == w.info
  {
    var m, q := MidSource(src, r, p), MidRegion(r);
    var u, ideal := DriverBlit(drv, v, m, dst, q, filter), IdealBlit(drv, w, src, dst, r, filter);
    MidLegal(apps, w, src, dst, r, filter, p);
    assert u == IdealBlit(drv, v, m, dst, q, filter);
    IdealKeeps(drv, v, m, dst, q, filter);
    IdealKeeps(drv, w, src, dst, r, filter);
    hide Emulable, Legal, WellFormed, IdealBlit, DriverBlit, Staged, SameBox, HasLayers;
    forall sub: Sub | sub.img in apps && sub in w.texels
      ensures u.texels[sub] == ideal.texels[sub]
    {
      SameIdeal(drv, w, src, r, v, m, q, dst, filter, sub);
    }
  }

  lemma SameIdeal<T>(drv: Driver<T>, w: World<T>, src: Img, r: Region, v: World<T>, m: Img, q: Region, dst: Img, filter: Filter, sub: Sub)
    requires v.info == w.info && src in w.info && m in w.info && dst in w.info && SameBox(w, src, r, v, m, q)
    requires sub in w.texels && sub in v.texels && v.texels[sub] == w.texels[sub]
    requires q.dst == r.dst && q.layerCount == r.layerCount
    requires SamplingOf(w.info, m, dst, q, filter) == SamplingOf(w.info, src, dst, r, filter)
    ensures sub in IdealBlit(drv, v, m, dst, q, filter).texels && sub in IdealBlit(drv, w, src, dst, r, filter).texels
    ensures IdealBlit(drv, v, m, dst, q, filter).texels[sub] == IdealBlit(drv, w, src, dst, r, filter).texels[sub]
  {
    IdealAt(drv, v, m, dst, q, filter, sub);
    IdealAt(drv, w, src, dst, r, filter, sub);
    hide IdealBlit, Resampled, Restrict;
    if Targets(dst, r.dst, r.layerCount, sub) {
      var i: nat := sub.layer - r.dst.base;
      assert BoxOf(v, m, q, i) == BoxOf(w, src, r, i);
      var s := SamplingOf(w.info, src, dst, r, filter);
      ResampledFrom(drv, s, At(v, SourceLayer(m, q.src, i)), At(w, SourceLayer(src, r.src, i)), w.texels[sub]);
    }
  }

  lemma IdealAt<T>(drv: Driver<T>, w: World<T>, src: Img, dst: Img, r: Region, filter: Filter, sub: Sub)
    requires src in w.info && dst in w.info && sub in w.texels
    ensures var u := IdealBlit(drv, w, src, dst, r, filter);
            && sub in u.texels
            && (!Targets(dst, r.dst, r.layerCount, sub) ==> u.texels[sub] == w.texels[sub])
            && (Targets(dst, r.dst, r.layerCount, sub) ==>
                  u.texels[sub] == Resampled(drv, SamplingOf(w.info, src, dst, r, filter),
                                             At(w, SourceLayer(src, r.src, sub.layer - r.dst.base)), w.texels[sub]))
  {
    hide Resampled;
  }

  lemma OverlayResampled<T>(drv: Driver<T>, s: Sampling, from: Texels<T>, scratch: Texels<T>, onto: Texels<T>)
    requires forall p :: p in scratch <==> p in onto
    ensures Overlay(Resampled(drv, s, from, scratch), onto, s.d0, s.d1) == Resampled(drv, s, from, onto)
  {
    hide Inside, Restrict;
  }

  /** Destination level above 0: the middle blit changes only the second scratch, which receives the resampled box. */
  lemma ScratchBlit<T>(drv: Driver<T>, apps: set<Img>, w: World<T>, v: World<T>, src: Img, dst: Img, r: Region, filter: Filter, p: Pair)
    requires Ready(apps, w, src, dst, r, p) && Emulable(w.info, src, dst, r) && SourceReady(apps, w, v, src, r, p)
    requires r.dst.level != 0
    ensures src in w.info && dst in w.info
    ensures var u := DriverBlit(drv, v, MidSource(src, r, p), p.dstImg, MidRegion(r), filter);
            && Sub(p.dstImg, 0, 0) in v.texels
            && TargetReady(drv, apps, w, u, v.texels[Sub(p.dstImg, 0, 0)], src, dst, r, filter, p)
  {
    var m, q := MidSource(src, r, p), MidRegion(r);
    var u := DriverBlit(drv, v, m, p.dstImg, q, filter);
    var scratch := Sub(p.dstImg, 0, 0);
    MidLegal(apps, w, src, dst, r, filter, p);
    assert u == IdealBlit(drv, v, m, p.dstImg, q, filter);
    IdealKeeps(drv, v, m, p.dstImg, q, filter);
    Present(v, p.dstImg, q.dst, 1);
    assert Targets(p.dstImg, q.dst, 1, scratch);
    hide Legal, WellFormed, IdealBlit, DriverBlit, HasLayers, Resampled, Restrict, InOrder;
    forall sub: Sub | sub.img in apps && sub in w.texels
      ensures u.texels[sub] == w.texels[sub]
    {
      IdealAt(drv, v, m, p.dstImg, q, filter, sub);
    }
    IdealAt(drv, v, m, p.dstImg, q, filter, scratch);
    assert BoxOf(v, m, q, 0) == BoxOf(w, src, r, 0);
    ResampledFrom(drv, SamplingOf(w.info, src, dst, r, filter),
                  At(v, SourceLayer(m, q.src, 0)), At(w, SourceLayer(src, r.src, 0)), v.texels[scratch]);
  }

  /** What the copy out finds: the app's images as before and the resampled box in the second scratch. */
  ghost predicate TargetReady<T>(drv: Driver<T>, apps: set<Img>, w: World<T>, u: World<T>, was: Texels<T>,
                                 src: Img, dst: Img, r: Region, filter: Filter, p: Pair)
    requires src in w.info && dst in w.info
  {
    var scratch := Sub(p.dstImg, 0, 0);
    && u.info == w.info && WellFormed(u) && Agree(apps, u, w) && scratch in u.texels
    && u.texels[scratch] == Resampled(drv, SamplingOf(w.info, src, dst, r, filter), At(w, SourceLayer(src, r.src, 0)), was)
  }

  lemma OutTexels<T>(drv: Driver<T>, s: Sampling, from: Texels<T>, was: Texels<T>, u: World<T>, c: Command)
    requires c.Copy? && c.layerCount == 1 && CopyLegal(u.info, c) && WellFormed(u) && c.sl == Layers(0, 0)
    requires ExtentAt(u.info, c.src, 0) == ExtentAt(u.info, c.dst, c.dl.level)
    requires c.offset == s.d0 && Corner(c.offset, c.extent) == s.d1
    requires Sub(c.src, 0, 0) in u.texels && u.texels[Sub(c.src, 0, 0)] == Resampled(drv, s, from, was)
    ensures var x, to := DriverCopy(drv, u, c), Sub(c.dst, c.dl.level, c.dl.base);
            && OnlySub(u, x, to) && WellFormed(x) && to in u.texels && x.texels[to] == Resampled(drv, s, from, u.texels[to])
  {
    var x, to, scratch := DriverCopy(drv, u, c), Sub(c.dst, c.dl.level, c.dl.base), Sub(c.src, 0, 0);
    CopyEffect(drv, u, c);
    assert forall q :: q in u.texels[scratch] <==> q in u.texels[to] by {
      hide ExtentAt, Resampled, Overlay, CopyLegal, DriverCopy;
    }
    hide DriverCopy, CopyLegal, ExtentAt, Resampled, Overlay, Corner;
    KeepsForm(u, x);
    hide WellFormed;
    ResampledFrom(drv, s, from, from, was);
    ResampledKeys(u.texels[scratch], was, u.texels[to]);
    OverlayResampled(drv, s, from, was, u.texels[to]);
  }

  /** The copy out then completes the ideal blit. */
  lemma StageOut<T>(drv: Driver<T>, apps: set<Img>, w: World<T>, u: World<T>, was: Texels<T>, src: Img, dst: Img, r: Region, filter: Filter, p: Pair)
    requires Ready(apps, w, src, dst, r, p) && Emulable(w.info, src, dst, r) && r.dst.level != 0
    requires TargetReady(drv, apps, w, u, was, src, dst, r, filter, p)
    ensures var x := DriverCopy(drv, u, OutCopy(dst, r.dst, p.dstImg, r.d0, r.d1, 1));
            Agree(apps, x, IdealBlit(drv, w, src, dst, r, filter)) && WellFormed(x) && x.info == w.info
  {
    var c := OutCopy(dst, r.dst, p.dstImg, r.d0, r.d1, 1);
    var x, ideal := DriverCopy(drv, u, c), IdealBlit(drv, w, src, dst, r, filter);
    var s, from := SamplingOf(w.info, src, dst, r, filter), At(w, SourceLayer(src, r.src, 0));
    var to := Sub(dst, r.dst.level, r.dst.base);
    StageOutLegal(apps, w, src, dst, r, p);
    hide DriverCopy, IdealBlit, CopyLegal, CopyExtent, Corner, ExtentAt, Resampled, Legal, Staged, Emulable, WellFormed;
    OutTexels(drv, s, from, was, u, c);
    IdealKeeps(drv, w, src, dst, r, filter);
    OutAgrees(drv, apps, w, u, x, src, dst, r, filter);
  }

  lemma OutAgrees<T>(drv: Driver<T>, apps: set<Img>, w: World<T>, u: World<T>, x: World<T>, src: Img, dst: Img, r: Region, filter: Filter)
    requires Agree(apps, u, w) && src in w.info && dst in w.info && dst in apps && r.layerCount == 1
    requires var to := Sub(dst, r.dst.level, r.dst.base);
             && to in u.texels && OnlySub(u, x, to)
             && x.texels[to] == Resampled(drv, SamplingOf(w.info, src, dst, r, filter), At(w, SourceLayer(src, r.src, 0)), u.texels[to])
    ensures Agree(apps, x, IdealBlit(drv, w, src, dst, r, filter))
  {
    var ideal, to := IdealBlit(drv, w, src, dst, r, filter), Sub(dst, r.dst.level, r.dst.base);
    IdealKeeps(drv, w, src, dst, r, filter);
    hide IdealBlit, Resampled, SamplingOf;
    forall sub: Sub | sub.img in apps && sub in w.texels
      ensures x.texels[sub] == ideal.texels[sub]
    {
      IdealAt(drv, w, src, dst, r, filter, sub);
      if sub != to {
        assert !Targets(dst, r.dst, r.layerCount, sub);
      }
    }
  }

  lemma ResampledKeys<T>(a: Texels<T>, b: Texels<T>, c: Texels<T>)
    requires a.Keys == b.Keys && forall p :: p in a <==> p in c
    ensures forall p :: p in b <==> p in c
  {
    assert forall p :: p in b <==> p in b.Keys;
    assert forall p :: p in a <==> p in a.Keys;
  }

  lemma StageOutLegal<T>(apps: set<Img>, w: World<T>, src: Img, dst: Img, r: Region, p: Pair)
    requires Ready(apps, w, src, dst, r, p) && Emulable(w.info, src, dst, r) && r.dst.level != 0
    ensures CopyLegal(w.info, OutCopy(dst, r.dst, p.dstImg, r.d0, r.d1, 1)) && r.layerCount == 1
    ensures ExtentAt(w.info, p.dstImg, 0) == ExtentAt(w.info, dst, r.dst.level)
    ensures Corner(r.d0, CopyExtent(r.d0, r.d1)) == r.d1
  {
    hide WellFormed, CopyExtent, Corner, CopyLegal, LevelExtent;
    StagingLegalIff(w.info, dst, r.dst, p.dstImg, r.d0, r.d1, 1);
    ScratchExtent(w.info, dst, r.dst, p.dstImg);
    SpanFits(r.d0, r.d1, ExtentAt(w.info, dst, r.dst.level));
  }

  // ---- one region, then whole chains -----------------------------------------

  /** The two worlds agree on the app's images and have the same shape. */
  ghost predicate Same<T>(apps: set<Img>, w: World<T>, v: World<T>) {
    w.info == v.info && WellFormed(w) && WellFormed(v) && Agree(apps, w, v)
  }

  /** One emulated region does to the app's images exactly what the ideal blit does, for every driver. */
  lemma EmulatedIsIdeal<T>(drv: Driver<T>, apps: set<Img>, w: World<T>, src: Img, dst: Img, r: Region, filter: Filter, p: Pair)
    requires Ready(apps, w, src, dst, r, p) && Emulable(w.info, src, dst, r)
    ensures Same(apps, Execute(drv, w, Emulated(src, dst, r, filter, Some(p))), IdealBlit(drv, w, src, dst, r, filter))
  {
    var ins, mid, outs := CopyIn(src, r, p), MidBlit(src, dst, r, filter, p), CopyOut(dst, r, p);
    var v := Execute(drv, w, ins);
    var u := DriverBlit(drv, v, MidSource(src, r, p), MidTarget(dst, r, p), MidRegion(r), filter);
    StageIn(drv, apps, w, src, dst, r, p);
    IdealKeeps(drv, w, src, dst, r, filter);
    ExecuteOne(drv, w, ins, mid);
    BlitOne(drv, v, MidSource(src, r, p), MidTarget(dst, r, p), MidRegion(r), filter);
    assert Execute(drv, w, ins + [mid]) == u;
    if r.dst.level == 0 {
      assert Emulated(src, dst, r, filter, Some(p)) == ins + [mid];
      DirectBlit(drv, apps, w, v, src, dst, r, filter, p);
    } else {
      StageOutLegal(apps, w, src, dst, r, p);
      var c := OutCopy(dst, r.dst, p.dstImg, r.d0, r.d1, 1);
      assert Emulated(src, dst, r, filter, Some(p)) == ins + [mid] + [c];
      ExecuteOne(drv, w, ins + [mid], c);
      hide Execute, Ready, Emulable, SourceReady, WellFormed, DriverBlit, DriverCopy, IdealBlit;
      ScratchBlit(drv, apps, w, v, src, dst, r, filter, p);
      StageOut(drv, apps, w, u, v.texels[Sub(p.dstImg, 0, 0)], src, dst, r, filter, p);
    }
  }

  lemma IdealRespects<T>(drv: Driver<T>, apps: set<Img>, w: World<T>, v: World<T>, src: Img, dst: Img, r: Region, filter: Filter)
    requires Same(apps, w, v) && src in apps && dst in apps && src in w.info && dst in w.info
    ensures Same(apps, IdealBlit(drv, w, src, dst, r, filter), IdealBlit(drv, v, src, dst, r, filter))
  {
    IdealKeeps(drv, w, src, dst, r, filter);
    IdealKeeps(drv, v, src, dst, r, filter);
    hide IdealBlit, WellFormed, Restrict;
    assert SameBox(w, src, r, v, src, r);
    forall sub: Sub | sub.img in apps && sub in w.texels
      ensures IdealBlit(drv, w, src, dst, r, filter).texels[sub] == IdealBlit(drv, v, src, dst, r, filter).texels[sub]
    {
      SameIdeal(drv, w, src, r, v, src, r, dst, filter, sub);
    }
  }

  ghost function IdealAll<T>(drv: Driver<T>, w: World<T>, src: Img, dst: Img, rs: seq<Region>, filter: Filter): (v: World<T>)
    requires src in w.info && dst in w.info
    ensures v.info == w.info
    decreases |rs|
  {
    if rs == [] then w
    else IdealBlit(drv, IdealAll(drv, w, src, dst, rs[..|rs| - 1], filter), src, dst, rs[|rs| - 1], filter)
  }

  ghost predicate ImagesKnown(info: map<Img, Info>, calls: seq<Call>) {
    forall i :: 0 <= i < |calls| ==> calls[i].src in info && calls[i].dst in info && |calls[i].regions| == |calls[i].pairs|
  }

  /** The ideal result of a chain of calls: every served region blitted in turn. */
  ghost function IdealCalls<T>(drv: Driver<T>, w: World<T>, calls: seq<Call>): (v: World<T>)
    requires ImagesKnown(w.info, calls)
    ensures v.info == w.info
    decreases |calls|
  {
    if calls == [] then w else
    var c := calls[|calls| - 1];
    IdealAll(drv, IdealCalls(drv, w, calls[..|calls| - 1]), c.src, c.dst, Served(c, |c.regions|), c.filter)
  }

  function RecordedAll(calls: seq<Call>): seq<Command>
    requires forall i :: 0 <= i < |calls| ==> |calls[i].regions| == |calls[i].pairs|
  {
    if calls == [] then [] else RecordedAll(calls[..|calls| - 1]) + Recorded(calls[|calls| - 1])
  }

  /** A call as the API allows it, with the scratch images its successful allocations delivered. */
  ghost predicate CallOk(info: map<Img, Info>, apps: set<Img>, c: Call) {
    && |c.regions| == |c.pairs| && c.src in apps && c.dst in apps && c.src in info && c.dst in info
    && (forall i :: 0 <= i < |c.regions| ==> Legal(info, c.src, c.dst, c.regions[i]))
    && (UsesMips(c.regions) ==> forall i :: 0 <= i < |c.regions| && c.pairs[i].Some? ==>
          Staged(info, apps, c.src, c.dst, c.regions[i], c.pairs[i].value) && Emulable(info, c.src, c.dst, c.regions[i]))
  }

  lemma {:induction false} PassedThrough<T>(drv: Driver<T>, apps: set<Img>, w: World<T>, v: World<T>, c: Call, n: nat)
    requires Same(apps, w, v) && CallOk(w.info, apps, c) && n <= |c.regions| && !UsesMips(c.regions)
    ensures Served(c, n) == c.regions[..n]
    ensures Same(apps, BlitAll(drv, w, c.src, c.dst, c.regions[..n], c.filter), IdealAll(drv, v, c.src, c.dst, Served(c, n), c.filter))
    ensures BlitAll(drv, w, c.src, c.dst, c.regions[..n], c.filter).info == w.info
  {
    hide Same, Staged, Emulable, Legal, IdealBlit, BlitAll, IdealAll;
    SameInfo(apps, w, v);
    if n == 0 {
      PassedNone(drv, w, v, c);
    } else {
      PassedThrough(drv, apps, w, v, c, n - 1);
      var r := c.regions[n - 1];
      assert Served(c, n) == c.regions[..n];
      assert r.src.level == 0 && r.dst.level == 0;
      PassedNext(drv, w, v, c, n - 1);
      var a := BlitAll(drv, w, c.src, c.dst, c.regions[..n - 1], c.filter);
      var b := IdealAll(drv, v, c.src, c.dst, c.regions[..n - 1], c.filter);
      hide UsesMips, Served;
      IdealRespects(drv, apps, a, b, c.src, c.dst, r, c.filter);
      IdealKeeps(drv, a, c.src, c.dst, r, c.filter);
    }
  }

  lemma PassedNone<T>(drv: Driver<T>, w: World<T>, v: World<T>, c: Call)
    requires c.src in v.info && c.dst in v.info
    ensures BlitAll(drv, w, c.src, c.dst, c.regions[..0], c.filter) == w
    ensures IdealAll(drv, v, c.src, c.dst, c.regions[..0], c.filter) == v
  {
  }

  lemma PassedNext<T>(drv: Driver<T>, w: World<T>, v: World<T>, c: Call, i: nat)
    requires i < |c.regions| && c.src in v.info && c.dst in v.info
    requires c.regions[i].src.level == 0 && c.regions[i].dst.level == 0
    ensures var a := BlitAll(drv, w, c.src, c.dst, c.regions[..i], c.filter);
            Legal(a.info, c.src, c.dst, c.regions[i]) ==>
              BlitAll(drv, w, c.src, c.dst, c.regions[..i + 1], c.filter) == IdealBlit(drv, a, c.src, c.dst, c.regions[i], c.filter)
    ensures IdealAll(drv, v, c.src, c.dst, c.regions[..i + 1], c.filter)
         == IdealBlit(drv, IdealAll(drv, v, c.src, c.dst, c.regions[..i], c.filter), c.src, c.dst, c.regions[i], c.filter)
  {
    assert c.regions[..i + 1][..i] == c.regions[..i] && c.regions[..i + 1][i] == c.regions[i];
    hide IdealBlit, HasLayers, Within;
  }

  lemma {:induction false} EmulatedThrough<T>(drv: Driver<T>, apps: set<Img>, w: World<T>, v: World<T>, c: Call, n: nat)
    requires Same(apps, w, v) && Sized(w.info) && CallOk(w.info, apps, c) && n <= |c.regions| && UsesMips(c.regions) && Emulates(c)
    ensures Same(apps, Execute(drv, w, EmulatedAll(c, n)), IdealAll(drv, v, c.src, c.dst, Served(c, n), c.filter))
  {
    hide Same, Sized, Legal, Staged, Emulable, UsesMips, Emulates, Execute, IdealAll, EmulatedAll, Served;
    SameInfo(apps, w, v);
    if n == 0 {
      NothingYet(drv, w, v, c);
    } else {
      EmulatedThrough(drv, apps, w, v, c, n - 1);
      EmulatedGrows(drv, apps, w, v, c, n - 1);
    }
  }

  lemma NothingYet<T>(drv: Driver<T>, w: World<T>, v: World<T>, c: Call)
    requires |c.regions| == |c.pairs| && c.src in v.info && c.dst in v.info
    ensures Execute(drv, w, EmulatedAll(c, 0)) == w && IdealAll(drv, v, c.src, c.dst, Served(c, 0), c.filter) == v
  {
  }

  lemma EmulatedGrows<T>(drv: Driver<T>, apps: set<Img>, w: World<T>, v: World<T>, c: Call, i: nat)
    requires w.info == v.info && Sized(w.info) && CallOk(w.info, apps, c) && i < |c.regions| && UsesMips(c.regions) && Emulates(c)
    requires Same(apps, Execute(drv, w, EmulatedAll(c, i)), IdealAll(drv, v, c.src, c.dst, Served(c, i), c.filter))
    ensures Same(apps, Execute(drv, w, EmulatedAll(c, i + 1)), IdealAll(drv, v, c.src, c.dst, Served(c, i + 1), c.filter))
  {
    var a, b := Execute(drv, w, EmulatedAll(c, i)), IdealAll(drv, v, c.src, c.dst, Served(c, i), c.filter);
    SameInfo(apps, a, b);
    ServedNext(drv, w, v, c, i);
    hide Same, Sized, Legal, Staged, Emulable, UsesMips, Emulates, Execute, EmulatedAll, IdealAll, Served, IdealBlit, Emulated;
    if c.pairs[i].Some? {
      EmulatedNext(drv, apps, a, b, c, i);
    } else {
      NotEmulated(drv, a, c, i);
    }
  }

  lemma ServedNext<T>(drv: Driver<T>, w: World<T>, v: World<T>, c: Call, i: nat)
    requires i < |c.regions| == |c.pairs| && UsesMips(c.regions) && Emulates(c) && c.src in v.info && c.dst in v.info
    ensures Execute(drv, w, EmulatedAll(c, i + 1))
         == Execute(drv, Execute(drv, w, EmulatedAll(c, i)), Emulated(c.src, c.dst, c.regions[i], c.filter, c.pairs[i]))
    ensures var b := IdealAll(drv, v, c.src, c.dst, Served(c, i), c.filter);
            IdealAll(drv, v, c.src, c.dst, Served(c, i + 1), c.filter)
            == if c.pairs[i].Some? then IdealBlit(drv, b, c.src, c.dst, c.regions[i], c.filter) else b
  {
    hide Execute, Emulated, IdealBlit;
    ExecuteAppend(drv, w, EmulatedAll(c, i), Emulated(c.src, c.dst, c.regions[i], c.filter, c.pairs[i]));
    if c.pairs[i].Some? {
      assert Served(c, i + 1)[..|Served(c, i + 1)| - 1] == Served(c, i);
    }
  }

  lemma ExecuteNone<T>(drv: Driver<T>, w: World<T>)
    ensures Execute(drv, w, []) == w
  {
  }

  lemma NotEmulated<T>(drv: Driver<T>, w: World<T>, c: Call, i: nat)
    requires i < |c.regions| == |c.pairs| && c.pairs[i].None?
    ensures Execute(drv, w, Emulated(c.src, c.dst, c.regions[i], c.filter, c.pairs[i])) == w
  {
  }

  lemma EmulatedNext<T>(drv: Driver<T>, apps: set<Img>, a: World<T>, b: World<T>, c: Call, i: nat)
    requires Same(apps, a, b) && Sized(a.info) && CallOk(a.info, apps, c) && i < |c.regions| && UsesMips(c.regions) && c.pairs[i].Some?
    ensures c.src in b.info && c.dst in b.info
    ensures Same(apps, Execute(drv, a, Emulated(c.src, c.dst, c.regions[i], c.filter, c.pairs[i])),
                 IdealBlit(drv, b, c.src, c.dst, c.regions[i], c.filter))
  {
    var r := c.regions[i];
    hide Emulable, Staged, Legal, WellFormed, IdealBlit, Agree, Execute, Emulated;
    EmulatedIsIdeal(drv, apps, a, c.src, c.dst, r, c.filter, c.pairs[i].value);
    IdealRespects(drv, apps, a, b, c.src, c.dst, r, c.filter);
    SameTrans(apps, Execute(drv, a, Emulated(c.src, c.dst, r, c.filter, c.pairs[i])),
              IdealBlit(drv, a, c.src, c.dst, r, c.filter), IdealBlit(drv, b, c.src, c.dst, r, c.filter));
  }

  lemma SameTrans<T>(apps: set<Img>, a: World<T>, b: World<T>, c: World<T>)
    requires Same(apps, a, b) && Same(apps, b, c)
    ensures Same(apps, a, c)
  {
    hide WellFormed;
  }

  lemma OneCall<T>(drv: Driver<T>, apps: set<Img>, w: World<T>, v: World<T>, c: Call)
    requires Same(apps, w, v) && Sized(w.info) && CallOk(w.info, apps, c)
    ensures Same(apps, Execute(drv, w, Recorded(c)), IdealAll(drv, v, c.src, c.dst, Served(c, |c.regions|), c.filter))
  {
    hide Same, Legal, Staged, Emulable, Execute, BlitAll, IdealAll, EmulatedAll;
    SameInfo(apps, w, v);
    if !UsesMips(c.regions) {
      PassedThrough(drv, apps, w, v, c, |c.regions|);
      assert c.regions[..|c.regions|] == c.regions;
      ExecuteOne(drv, w, [], Blit(c.src, c.dst, c.regions, c.filter));
    } else if Emulates(c) {
      EmulatedThrough(drv, apps, w, v, c, |c.regions|);
    } else {
      Dropped(drv, w, v, c, |c.regions|);
    }
  }

  lemma {:induction false} Dropped<T>(drv: Driver<T>, w: World<T>, v: World<T>, c: Call, n: nat)
    requires n <= |c.regions| == |c.pairs| && UsesMips(c.regions) && !Emulates(c) && c.src in v.info && c.dst in v.info
    ensures Served(c, n) == [] && IdealAll(drv, v, c.src, c.dst, [], c.filter) == v && Execute(drv, w, []) == w
  {
    if n > 0 {
      Dropped(drv, w, v, c, n - 1);
    }
  }

  /**
    Any chain of blit calls, executed by a driver that is right only at level 0, leaves every image
    of the app as the ideal chain over the served regions leaves it.
   */
  lemma {:induction false} ChainIsIdeal<T>(drv: Driver<T>, apps: set<Img>, w: World<T>, calls: seq<Call>)
    requires WellFormed(w) && Sized(w.info) && forall i :: 0 <= i < |calls| ==> CallOk(w.info, apps, calls[i])
    ensures ImagesKnown(w.info, calls)
    ensures Same(apps, Execute(drv, w, RecordedAll(calls)), IdealCalls(drv, w, calls))
    decreases |calls|
  {
    if calls != [] {
      var c, before := calls[|calls| - 1], calls[..|calls| - 1];
      ChainIsIdeal(drv, apps, w, before);
      ExecuteAppend(drv, w, RecordedAll(before), Recorded(c));
      hide Same, CallOk, Execute, Recorded, Served;
      var a, b := Execute(drv, w, RecordedAll(before)), IdealCalls(drv, w, before);
      assert Same(apps, a, b) && a.info == b.info by { SameInfo(apps, a, b); }
      OneCall(drv, apps, a, b, c);
    }
  }

  lemma SameInfo<T>(apps: set<Img>, a: World<T>, b: World<T>)
    requires Same(apps, a, b)
    ensures a.info == b.info
  {
  }
}
