/**
  vkCmdBlitImage over a driver that blits correctly only between two level-0 images but copies
  correctly at every level: the commands the shim records in place of a mip-level blit.
 */
module MipBlit {
  import opened Common

  type Img = nat
  type Filter = nat
  const UINT32: int := 0x1_0000_0000

  datatype Pos = Pos(x: int, y: int, z: int)
  datatype Extent = Extent(width: int, height: int, depth: int)
  datatype Info = Info(format: nat, extent: Extent, levels: nat, layers: nat)
  datatype Layers = Layers(level: nat, base: nat)

  /** VkImageBlit; both subresources name the same number of layers, as the API demands. */
  datatype Region = Region(src: Layers, s0: Pos, s1: Pos, dst: Layers, d0: Pos, d1: Pos, layerCount: nat)

  datatype Command =
    | Copy(src: Img, sl: Layers, dst: Img, dl: Layers, offset: Pos, extent: Extent, layerCount: nat)
    | Blit(src: Img, dst: Img, regions: seq<Region>, filter: Filter)

  /** The two scratch handles of one emulated region. */
  datatype Pair = Pair(srcImg: Img, dstImg: Img)

  /**
    One vkCmdBlitImage with what the shim finds out while serving it: the property gate, whether the
    buffer's device is known, whether the scratch functions and memory properties are available, the
    recorded image metadata and what each scratch allocation returned.
   */
  datatype Call = Call(src: Img, dst: Img, regions: seq<Region>, filter: Filter,
                       gate: bool, device: bool, functions: bool, srcInfo: Option<Info>, dstInfo: Option<Info>,
                       pairs: seq<Option<Pair>>)

  /** The VkFormat values format_is_depth_stencil names; 125, X8_D24, is not among them. */
  predicate IsDepthStencil(format: nat) {
    format == 124 || 126 <= format <= 130
  }

  predicate Emulates(c: Call) {
    c.gate && c.device && c.functions && c.srcInfo.Some? && c.dstInfo.Some? && !IsDepthStencil(c.srcInfo.value.format)
  }

  function Pow2(n: nat): (r: nat)
    ensures r > 0
  {
    if n == 0 then 1 else 2 * Pow2(n - 1)
  }

  /** mip_ext: one dimension of a mip level. */
  function MipExt(base: int, level: nat): (r: int)
    ensures r >= 1
  {
    if base / Pow2(level) > 0 then base / Pow2(level) else 1
  }

  function LevelExtent(e: Extent, level: nat): Extent {
    Extent(MipExt(e.width, level), MipExt(e.height, level), MipExt(e.depth, level))
  }

  /** One dimension of a copy: an unsigned 32-bit difference, with zero raised to one. */
  function CopySpan(from: int, to: int): int {
    var d := (to - from) % UINT32;
    if d == 0 then 1 else d
  }

  function CopyExtent(a: Pos, b: Pos): Extent {
    Extent(CopySpan(a.x, b.x), CopySpan(a.y, b.y), CopySpan(a.z, b.z))
  }

  /** The images get_scratch_pair is asked for: one layer, one level, both in the source's format. */
  function Wanted(srcInfo: Info, dstInfo: Info, r: Region): (Info, Info) {
    (Info(srcInfo.format, LevelExtent(srcInfo.extent, r.src.level), 1, 1),
     Info(srcInfo.format, LevelExtent(dstInfo.extent, r.dst.level), 1, 1))
  }

  function MidRegion(r: Region): Region {
    r.(src := Layers(0, if r.src.level == 0 then r.src.base else 0),
       dst := Layers(0, if r.dst.level == 0 then r.dst.base else 0))
  }

  function CopyIn(src: Img, r: Region, p: Pair): seq<Command> {
    if r.src.level == 0 then []
    else [Copy(src, r.src, p.srcImg, Layers(0, 0), r.s0, CopyExtent(r.s0, r.s1), r.layerCount)]
  }

  function MidBlit(src: Img, dst: Img, r: Region, filter: Filter, p: Pair): Command {
    Blit(if r.src.level == 0 then src else p.srcImg, if r.dst.level == 0 then dst else p.dstImg, [MidRegion(r)], filter)
  }

  function CopyOut(dst: Img, r: Region, p: Pair): seq<Command> {
    if r.dst.level == 0 then []
    else [Copy(p.dstImg, Layers(0, 0), dst, r.dst, r.d0, CopyExtent(r.d0, r.d1), r.layerCount)]
  }

  /** What emit_emulated_blit records for one region: stage in, blit at level 0, stage out. */
  function Emulated(src: Img, dst: Img, r: Region, filter: Filter, p: Option<Pair>): seq<Command> {
    if p.None? then []
    else CopyIn(src, r, p.value) + [MidBlit(src, dst, r, filter, p.value)] + CopyOut(dst, r, p.value)
  }

  function EmulatedAll(c: Call, n: nat): seq<Command>
    requires n <= |c.regions| == |c.pairs|
  {
    if n == 0 then [] else EmulatedAll(c, n - 1) + Emulated(c.src, c.dst, c.regions[n - 1], c.filter, c.pairs[n - 1])
  }

  function WantedAll(c: Call, n: nat): seq<(Info, Info)>
    requires n <= |c.regions| && c.srcInfo.Some? && c.dstInfo.Some?
  {
    if n == 0 then [] else WantedAll(c, n - 1) + [Wanted(c.srcInfo.value, c.dstInfo.value, c.regions[n - 1])]
  }

  predicate UsesMips(rs: seq<Region>) {
    exists i :: 0 <= i < |rs| && (rs[i].src.level != 0 || rs[i].dst.level != 0)
  }

  /** The commands the driver receives for one call. */
  function Recorded(c: Call): seq<Command>
    requires |c.regions| == |c.pairs|
  {
    if !UsesMips(c.regions) then [Blit(c.src, c.dst, c.regions, c.filter)]
    else if Emulates(c) then EmulatedAll(c, |c.regions|)
    else []
  }

  /** The regions of the call that are served at all. */
  function Served(c: Call, n: nat): seq<Region>
    requires n <= |c.regions| == |c.pairs|
  {
    if n == 0 then []
    else if !UsesMips(c.regions) || (Emulates(c) && c.pairs[n - 1].Some?) then Served(c, n - 1) + [c.regions[n - 1]]
    else Served(c, n - 1)
  }

  class Recorder {
    var commands: seq<Command>
    var requests: seq<(Info, Info)>

    /** alloc is what get_scratch_pair answered to the request this appends. */
    method EmitEmulatedBlit(src: Img, dst: Img, r: Region, filter: Filter, srcInfo: Info, dstInfo: Info, alloc: Option<Pair>)
      modifies this
      ensures requests == old(requests) + [Wanted(srcInfo, dstInfo, r)]
      ensures commands == old(commands) + Emulated(src, dst, r, filter, alloc)
    {
      var se, de := LevelExtent(srcInfo.extent, r.src.level), LevelExtent(dstInfo.extent, r.dst.level);
      requests := requests + [(Info(srcInfo.format, se, 1, 1), Info(srcInfo.format, de, 1, 1))];
      if alloc.None? {
        return;
      }
      var p := alloc.value;
      if r.src.level != 0 {
        var e := CopyExtent(r.s0, r.s1);
        commands := commands + [Copy(src, r.src, p.srcImg, Layers(0, 0), r.s0, e, r.layerCount)];
      }
      var mid := r.(src := r.src.(level := 0), dst := r.dst.(level := 0));
      var midSrc, midDst := src, dst;
      if r.src.level != 0 {
        midSrc := p.srcImg;
        mid := mid.(src := mid.src.(base := 0));
      }
      if r.dst.level != 0 {
        midDst := p.dstImg;
        mid := mid.(dst := mid.dst.(base := 0));
      }
      commands := commands + [Blit(midSrc, midDst, [mid], filter)];
      if r.dst.level != 0 {
        var e := CopyExtent(r.d0, r.d1);
        commands := commands + [Copy(p.dstImg, Layers(0, 0), dst, r.dst, r.d0, e, r.layerCount)];
      }
    }

    method CmdBlitImage(c: Call)
      requires |c.regions| == |c.pairs|
      modifies this
      ensures commands == old(commands) + Recorded(c)
      ensures requests == old(requests) + if UsesMips(c.regions) && Emulates(c) then WantedAll(c, |c.regions|) else []
    {
      hide Emulated, Wanted;
      var mips := false;
      for i := 0 to |c.regions|
        invariant mips <==> exists j :: 0 <= j < i && (c.regions[j].src.level != 0 || c.regions[j].dst.level != 0)
      {
        if c.regions[i].src.level != 0 || c.regions[i].dst.level != 0 {
          mips := true;
        }
      }
      if !mips {
        commands := commands + [Blit(c.src, c.dst, c.regions, c.filter)];
        return;
      }
      if !c.gate || !c.device || !c.functions {
        return;
      }
      if c.srcInfo.None? || c.dstInfo.None? || IsDepthStencil(c.srcInfo.value.format) {
        return;
      }
      for i := 0 to |c.regions|
        invariant commands == old(commands) + EmulatedAll(c, i)
        invariant requests == old(requests) + WantedAll(c, i)
      {
        EmitEmulatedBlit(c.src, c.dst, c.regions[i], c.filter, c.srcInfo.value, c.dstInfo.value, c.pairs[i]);
      }
    }
  }
}

/** What images hold, what the ideal blit does to them and what the driver does. */
module BlitSemantics {
  import opened Common
  import opened MipBlit

  datatype Sub = Sub(img: Img, level: nat, layer: nat)
  type Texels<T> = map<Pos, T>
  datatype World<T> = World(info: map<Img, Info>, texels: map<Sub, Texels<T>>)

  datatype Sampling = Sampling(filter: Filter, srcFormat: nat, dstFormat: nat, s0: Pos, s1: Pos, d0: Pos, d1: Pos)

  /**
    A driver: how it resamples one texel from the source region, and what it does when asked for a
    blit away from level 0 or for anything out of bounds, which may be anything.
   */
  datatype Driver<!T> = Driver(resample: (Sampling, Texels<T>, Pos) -> T,
                               badBlit: (World<T>, Img, Img, Region, Filter) -> World<T>,
                               badCopy: (World<T>, Command) -> World<T>)

  /** p lies in the box spanned by two corners, given in either order on each axis. */
  predicate Inside(a: Pos, b: Pos, p: Pos) {
    && Min(a.x, b.x) <= p.x < Max(a.x, b.x)
    && Min(a.y, b.y) <= p.y < Max(a.y, b.y)
    && Min(a.z, b.z) <= p.z < Max(a.z, b.z)
  }

  function Corner(a: Pos, e: Extent): Pos { Pos(a.x + e.width, a.y + e.height, a.z + e.depth) }

  predicate Within(e: Extent, p: Pos) { 0 <= p.x <= e.width && 0 <= p.y <= e.height && 0 <= p.z <= e.depth }

  function ExtentAt(info: map<Img, Info>, img: Img, level: nat): Extent
    requires img in info
  {
    LevelExtent(info[img].extent, level)
  }

  predicate HasLayers(info: map<Img, Info>, img: Img, l: Layers, count: nat) {
    img in info && l.level < info[img].levels && l.base + count <= info[img].layers
  }

  ghost predicate WellFormed<T>(w: World<T>) {
    && (forall sub :: sub in w.texels <==> HasLayers(w.info, sub.img, Layers(sub.level, sub.layer), 1))
    && (forall sub, p :: sub in w.texels ==> (p in w.texels[sub] <==> Inside(Pos(0, 0, 0), Corner(Pos(0, 0, 0), ExtentAt(w.info, sub.img, sub.level)), p)))
  }

  predicate Targets(dst: Img, l: Layers, count: nat, sub: Sub) {
    sub.img == dst && sub.level == l.level && l.base <= sub.layer < l.base + count
  }

  function Restrict<T>(t: Texels<T>, a: Pos, b: Pos): Texels<T> {
    map p | p in t && Inside(a, b, p) :: t[p]
  }

  function At<T>(w: World<T>, sub: Sub): Texels<T> {
    if sub in w.texels then w.texels[sub] else map[]
  }

  function SamplingOf(info: map<Img, Info>, src: Img, dst: Img, r: Region, filter: Filter): Sampling
    requires src in info && dst in info
  {
    Sampling(filter, info[src].format, info[dst].format, r.s0, r.s1, r.d0, r.d1)
  }

  /** One destination level after the blit: texels in the destination box are resampled, the rest stay. */
  ghost function Resampled<T>(drv: Driver<T>, s: Sampling, from: Texels<T>, onto: Texels<T>): Texels<T> {
    map p | p in onto :: if Inside(s.d0, s.d1, p) then drv.resample(s, Restrict(from, s.s0, s.s1), p) else onto[p]
  }

  /** The blit of one region as vkCmdBlitImage defines it, at any level. */
  ghost function IdealBlit<T>(drv: Driver<T>, w: World<T>, src: Img, dst: Img, r: Region, filter: Filter): World<T>
    requires src in w.info && dst in w.info
  {
    w.(texels := map sub | sub in w.texels ::
      if Targets(dst, r.dst, r.layerCount, sub)
      then Resampled(drv, SamplingOf(w.info, src, dst, r, filter),
                     At(w, Sub(src, r.src.level, r.src.base + sub.layer - r.dst.base)), w.texels[sub])
      else w.texels[sub])
  }

  /** What the API demands of a region. Corners may come in either order on each axis. */
  predicate Legal(info: map<Img, Info>, src: Img, dst: Img, r: Region) {
    && r.layerCount > 0 && HasLayers(info, src, r.src, r.layerCount) && HasLayers(info, dst, r.dst, r.layerCount)
    && Within(ExtentAt(info, src, r.src.level), r.s0) && Within(ExtentAt(info, src, r.src.level), r.s1)
    && Within(ExtentAt(info, dst, r.dst.level), r.d0) && Within(ExtentAt(info, dst, r.dst.level), r.d1)
  }

  /** The driver's blit is right only from level 0 to level 0. */
  ghost function DriverBlit<T>(drv: Driver<T>, w: World<T>, src: Img, dst: Img, r: Region, filter: Filter): World<T> {
    if Legal(w.info, src, dst, r) && r.src.level == 0 && r.dst.level == 0 then IdealBlit(drv, w, src, dst, r, filter)
    else drv.badBlit(w, src, dst, r, filter)
  }

  predicate CopyLegal(info: map<Img, Info>, c: Command)
    requires c.Copy?
  {
    && c.layerCount > 0 && HasLayers(info, c.src, c.sl, c.layerCount) && HasLayers(info, c.dst, c.dl, c.layerCount)
    && Within(ExtentAt(info, c.src, c.sl.level), c.offset)
    && Within(ExtentAt(info, c.src, c.sl.level), Corner(c.offset, c.extent))
    && Within(ExtentAt(info, c.dst, c.dl.level), c.offset)
    && Within(ExtentAt(info, c.dst, c.dl.level), Corner(c.offset, c.extent))
  }

  function Overlay<T>(from: Texels<T>, onto: Texels<T>, a: Pos, b: Pos): Texels<T> {
    map p | p in onto :: if Inside(a, b, p) && p in from then from[p] else onto[p]
  }

  /** The driver's copy honours every level. */
  ghost function DriverCopy<T>(drv: Driver<T>, w: World<T>, c: Command): World<T>
    requires c.Copy?
  {
    if !CopyLegal(w.info, c) then drv.badCopy(w, c)
    else w.(texels := map sub | sub in w.texels ::
      if Targets(c.dst, c.dl, c.layerCount, sub)
      then Overlay(At(w, Sub(c.src, c.sl.level, c.sl.base + sub.layer - c.dl.base)), w.texels[sub],
                   c.offset, Corner(c.offset, c.extent))
      else w.texels[sub])
  }

  ghost function BlitAll<T>(drv: Driver<T>, w: World<T>, src: Img, dst: Img, rs: seq<Region>, filter: Filter): World<T>
    decreases |rs|
  {
    if rs == [] then w
    else DriverBlit(drv, BlitAll(drv, w, src, dst, rs[..|rs| - 1], filter), src, dst, rs[|rs| - 1], filter)
  }

  ghost function Run<T>(drv: Driver<T>, w: World<T>, c: Command): World<T> {
    if c.Copy? then DriverCopy(drv, w, c) else BlitAll(drv, w, c.src, c.dst, c.regions, c.filter)
  }

  ghost function Execute<T>(drv: Driver<T>, w: World<T>, cs: seq<Command>): World<T>
    decreases |cs|
  {
    if cs == [] then w else Run(drv, Execute(drv, w, cs[..|cs| - 1]), cs[|cs| - 1])
  }
}
