/**
 * The animated figure of the visualisation app (`build_figure_frames` and
 * `main`): trace 0 shows the CO2 voxels of the first timestep, trace 1 the
 * injector cubes; one frame and one slider step per timestep; buttons that
 * play the frames, change the vertical exaggeration, the colour floor of
 * trace 0 and the visibility of trace 1. The browser's reaction to a button
 * or slider step is modelled by `Apply`.
 */
module Frames {
  import opened Text
  import opened Voxels
  import Timesteps
  import R = RleReader

  /** `build_voxels_from_values` is called with its default grid. */
  const DefaultGrid: Grid := Grid(100, 100, 10)

  /** The colour attributes of a trace: an intensity list on the `Hot` scale from `cmin` to `cmax`, or one solid colour. */
  datatype Shading = Intensity(values: seq<real>, cmin: real, cmax: real) | Solid

  /** A `go.Mesh3d` trace. */
  datatype Trace = Trace(name: string, mesh: Mesh, shading: Shading, visible: bool)

  /** A `go.Frame`: its name and the trace it puts in place of trace 0. */
  datatype Frame = Frame(name: string, data: Trace)

  /** A slider step: its label and the frame it animates to. */
  datatype SliderStep = SliderStep(caption: string, frame: string)

  /** What a button or slider step asks the browser to do. */
  datatype Action =
    | Animate(frame: string)
    | Play(repeat: bool)
    | Pause
    | Relayout(aspectZ: int)
    | RestyleCmin(cmin: real)
    | RestyleVisible(visible: bool)

  datatype Button = Button(caption: string, action: Action)

  /** The figure: its traces, frames, `scene.aspectratio.z`, button menus and slider. */
  datatype Figure = Figure(data: seq<Trace>, frames: seq<Frame>, aspectZ: int, menus: seq<seq<Button>>, steps: seq<SliderStep>)

  /** The figure, or the exception that stops `build_figure_frames`. */
  datatype FigureResult = Built(fig: Figure) | IndexError | KeyError

  /** The CO2 trace of one timestep, built from its values at the given threshold. */
  function Co2Trace(values: seq<real>, threshold: real, ts: nat): (t: Trace)
    ensures t.shading.Intensity? && t.shading.cmin == threshold && t.shading.cmax == 1.0
  {
    var v := Voxelize(values, threshold, DefaultGrid);
    Trace("CO2 ts" + Decimal(ts), v.mesh, Intensity(v.colors, threshold, 1.0), true)
  }

  /** The fixed trace of the injector cubes. */
  function InjectorTrace(mesh: Mesh): Trace {
    Trace("Inyectores", mesh, Solid, true)
  }

  /** `f"ts{ts}"`. */
  function FrameName(ts: nat): string { "ts" + Decimal(ts) }

  function FrameOf(values: seq<real>, threshold: real, ts: nat): Frame {
    Frame(FrameName(ts), Co2Trace(values, threshold, ts))
  }

  /** The frames of the listed timesteps, in list order. */
  function FramesOf(ymfs: map<nat, seq<real>>, tss: seq<nat>, threshold: real): (fs: seq<Frame>)
    requires forall n :: 0 <= n < |tss| ==> tss[n] in ymfs
    ensures |fs| == |tss|
  {
    if tss == [] then []
    else FramesOf(ymfs, tss[..|tss| - 1], threshold) + [FrameOf(ymfs[tss[|tss| - 1]], threshold, tss[|tss| - 1])]
  }

  /** One slider step per timestep, captioned `str(ts)`, animating to frame `ts{ts}`. */
  function SliderSteps(tss: seq<nat>): (ss: seq<SliderStep>)
    ensures |ss| == |tss|
    ensures forall n :: 0 <= n < |tss| ==> ss[n] == SliderStep(Decimal(tss[n]), FrameName(tss[n]))
  {
    seq(|tss|, n requires 0 <= n < |tss| => SliderStep(Decimal(tss[n]), FrameName(tss[n])))
  }

  /** The vertical exaggerations of the `Z x…` buttons. */
  const ZScales: seq<int> := [1, 5, 8, 10, 15, 20]

  /** The colour floors of the `YMFS ≥ …` buttons. */
  const Floors: seq<real> := [0.05, 0.10, 0.15, 0.20, 0.30]

  function ZButtons(): seq<Button> {
    [ Button("Z x1", Relayout(1)), Button("Z x5", Relayout(5)), Button("Z x8", Relayout(8)),
      Button("Z x10", Relayout(10)), Button("Z x15", Relayout(15)), Button("Z x20", Relayout(20)) ]
  }

  function FloorButtons(): seq<Button> {
    [ Button("YMFS \U{2265} 0.05", RestyleCmin(0.05)), Button("YMFS \U{2265} 0.10", RestyleCmin(0.10)),
      Button("YMFS \U{2265} 0.15", RestyleCmin(0.15)), Button("YMFS \U{2265} 0.20", RestyleCmin(0.20)),
      Button("YMFS \U{2265} 0.30", RestyleCmin(0.30)) ]
  }

  /** The four `updatemenus`: play/pause, vertical exaggeration, colour floor, injector visibility. */
  function Menus(): seq<seq<Button>> {
    [ [Button("\U{25B6} Play", Play(false)), Button("\U{23F8} Pause", Pause)],
      ZButtons(),
      FloorButtons(),
      [Button("Inyectores: ON", RestyleVisible(true)), Button("Inyectores: OFF", RestyleVisible(false))] ]
  }

  /** What `build_figure_frames(ymfs_dict, timestep_indices, threshold, z_scale)` returns or raises. */
  function FigureOf(ymfs: map<nat, seq<real>>, indices: seq<nat>, threshold: real, zScale: int): FigureResult {
    if indices == [] then IndexError
    else if exists n :: 0 <= n < |indices| && indices[n] !in ymfs then KeyError
    else
      var first := indices[0];
      Built(Figure(
        [Co2Trace(ymfs[first], threshold, first), InjectorTrace(BoxesMesh(WellBoxes(|Wells|)))],
        FramesOf(ymfs, indices, threshold), zScale, Menus(), SliderSteps(indices)))
  }

  /** The CO2 trace of one timestep, from `build_voxels_from_values` at the default grid. */
  method BuildCo2Trace(values: seq<real>, threshold: real, ts: nat) returns (t: Trace)
    ensures t == Co2Trace(values, threshold, ts)
  {
    var v := BuildVoxels(values, threshold, DefaultGrid);
    t := Trace("CO2 ts" + Decimal(ts), v.mesh, Intensity(v.colors, threshold, 1.0), true);
  }

  lemma FramesOfSnoc(ymfs: map<nat, seq<real>>, tss: seq<nat>, threshold: real, n: nat)
    requires n < |tss| && forall m :: 0 <= m <= n ==> tss[m] in ymfs
    ensures FramesOf(ymfs, tss[..n + 1], threshold) == FramesOf(ymfs, tss[..n], threshold) + [FrameOf(ymfs[tss[n]], threshold, tss[n])]
  {
    assert tss[..n + 1][..n] == tss[..n];
  }

  /** `build_figure_frames`. */
  method BuildFigureFrames(ymfs: map<nat, seq<real>>, indices: seq<nat>, threshold: real, zScale: int) returns (r: FigureResult)
    ensures r == FigureOf(ymfs, indices, threshold, zScale)
  {
    if |indices| == 0 {
      return IndexError;
    }
    var first := indices[0];
    if first !in ymfs {
      MissingKeyRaises(ymfs, indices, threshold, zScale, 0);
      return KeyError;
    }
    var co2 := BuildCo2Trace(ymfs[first], threshold, first);
    var inj := BuildInjectorCubes();
    var data := [co2, Trace("Inyectores", inj, Solid, true)];
    var missing, frames := BuildFrames(ymfs, indices, threshold);
    if missing.Some? {
      MissingKeyRaises(ymfs, indices, threshold, zScale, missing.value);
      return KeyError;
    }
    AllKeysBuild(ymfs, indices, threshold, zScale);
    return Built(Figure(data, frames, zScale, Menus(), SliderSteps(indices)));
  }

  /** The `for ts in timestep_indices` loop: the frames in order, or the position of the first timestep missing from `ymfs_dict`. */
  method BuildFrames(ymfs: map<nat, seq<real>>, indices: seq<nat>, threshold: real)
    returns (missing: Option<nat>, frames: seq<Frame>)
    ensures missing.Some? ==>
      && missing.value < |indices| && indices[missing.value] !in ymfs
      && forall m :: 0 <= m < missing.value ==> indices[m] in ymfs
    ensures missing.None? ==>
      && (forall m :: 0 <= m < |indices| ==> indices[m] in ymfs)
      && frames == FramesOf(ymfs, indices, threshold)
  {
    frames := [];
    for n := 0 to |indices|
      invariant forall m :: 0 <= m < n ==> indices[m] in ymfs
      invariant frames == FramesOf(ymfs, indices[..n], threshold)
    {
      var ts := indices[n];
      if ts !in ymfs {
        return Some(n), frames;
      }
      var t := BuildCo2Trace(ymfs[ts], threshold, ts);
      FramesOfSnoc(ymfs, indices, threshold, n);
      frames := frames + [Frame("ts" + Decimal(ts), t)];
    }
    assert indices[..|indices|] == indices;
    missing := None;
  }

  lemma MissingKeyRaises(ymfs: map<nat, seq<real>>, indices: seq<nat>, threshold: real, zScale: int, n: nat)
    requires n < |indices| && indices[n] !in ymfs
    ensures FigureOf(ymfs, indices, threshold, zScale) == KeyError
  {
  }

  lemma AllKeysBuild(ymfs: map<nat, seq<real>>, indices: seq<nat>, threshold: real, zScale: int)
    requires indices != [] && forall m :: 0 <= m < |indices| ==> indices[m] in ymfs
    ensures FigureOf(ymfs, indices, threshold, zScale) == Built(Figure(
      [Co2Trace(ymfs[indices[0]], threshold, indices[0]), InjectorTrace(BoxesMesh(WellBoxes(|Wells|)))],
      FramesOf(ymfs, indices, threshold), zScale, Menus(), SliderSteps(indices)))
  {
  }

  /** The first frame with the given name. */
  function FindFrame(frames: seq<Frame>, name: string): (r: Option<nat>)
    ensures r.Some? ==>
      && r.value < |frames| && frames[r.value].name == name
      && forall n :: 0 <= n < r.value ==> frames[n].name != name
    ensures r.None? ==> forall n :: 0 <= n < |frames| ==> frames[n].name != name
  {
    if frames == [] then None
    else if frames[0].name == name then Some(0)
    else match FindFrame(frames[1..], name)
      case Some(n) => Some(n + 1)
      case None => None
  }

  /** Trace 0 replaced by a frame's trace. */
  function ShowFrame(fig: Figure, f: Frame): Figure {
    if fig.data == [] then fig else fig.(data := [f.data] + fig.data[1..])
  }

  /**
   * The browser's reaction: an animation puts the frame's trace in place of
   * trace 0 (`Play` without repeat ends on the last frame), a relayout sets the
   * vertical exaggeration, the restyles set `cmin` of trace 0 or `visible` of
   * trace 1. The frames themselves are never touched.
   */
  function Apply(fig: Figure, a: Action): Figure {
    match a
    case Animate(name) =>
      (match FindFrame(fig.frames, name)
       case Some(n) => ShowFrame(fig, fig.frames[n])
       case None => fig)
    case Play(repeat) =>
      if fig.frames == [] || repeat then fig else ShowFrame(fig, fig.frames[|fig.frames| - 1])
    case Pause => fig
    case Relayout(z) => fig.(aspectZ := z)
    case RestyleCmin(c) =>
      if fig.data == [] || !fig.data[0].shading.Intensity? then fig
      else fig.(data := [fig.data[0].(shading := fig.data[0].shading.(cmin := c))] + fig.data[1..])
    case RestyleVisible(b) =>
      if |fig.data| < 2 then fig
      else fig.(data := fig.data[..1] + [fig.data[1].(visible := b)] + fig.data[2..])
  }

  /** What `main` shows: the figure, or the message that no timestep was found. */
  datatype AppResult = Shown(fig: Figure) | NoTimesteps | LoadRaised

  /** `main` with its defaults: threshold 0.10 and vertical exaggeration 1. */
  method ShowApp(dir: Option<seq<Timesteps.DirFile>>, ps: R.Parsers) returns (r: AppResult)
    ensures r.NoTimesteps? ==> dir.None? || Timesteps.CatalogueIds(dir.value) == []
    ensures r.LoadRaised? <==> dir.Some? && Timesteps.CatalogueData(dir.value, ps).None?
    ensures r.Shown? ==>
      && dir.Some? && Timesteps.CatalogueData(dir.value, ps).Some?
      && exists idxs: seq<nat> :: Timesteps.Sorted(idxs) && multiset(idxs) == multiset(Timesteps.CatalogueIds(dir.value))
           && Built(r.fig) == FigureOf(Timesteps.CatalogueData(dir.value, ps).value, idxs, 0.10, 1)
  {
    var loaded := Timesteps.LoadAllTimesteps(dir, ps);
    if loaded.ReadRaised? {
      return LoadRaised;
    }
    if loaded.idxs == [] {
      if dir.Some? {
        assert multiset(Timesteps.CatalogueIds(dir.value)) == multiset{};
      }
      return NoTimesteps;
    }
    assert dir.Some?;
    LoadedIdsHaveData(dir.value, ps, loaded.data, loaded.idxs);
    var fig := BuildFigureFrames(loaded.data, loaded.idxs, 0.10, 1);
    return Shown(fig.fig);
  }

  // ---------------------------------------------------------------- lemmas

  /** Every id `load_all_timesteps` lists has its values in the returned dictionary. */
  lemma LoadedIdsHaveData(files: seq<Timesteps.DirFile>, ps: R.Parsers, data: map<nat, seq<real>>, idxs: seq<nat>)
    requires Timesteps.CatalogueData(files, ps) == Some(data)
    requires multiset(idxs) == multiset(Timesteps.CatalogueIds(files))
    ensures forall n :: 0 <= n < |idxs| ==> idxs[n] in data
  {
    Timesteps.CatalogueKeys(files, ps);
    forall n | 0 <= n < |idxs| ensures idxs[n] in data {
      assert idxs[n] in multiset(idxs);
      assert idxs[n] in Timesteps.CatalogueIds(files);
    }
  }

  /** Frame names tell timesteps apart: `ts{a}` and `ts{b}` are equal exactly when `a == b`. */
  lemma FrameNameInjective(a: nat, b: nat)
    ensures FrameName(a) == FrameName(b) <==> a == b
  {
    if FrameName(a) == FrameName(b) {
      assert FrameName(a)[2..] == Decimal(a);
      assert FrameName(b)[2..] == Decimal(b);
      DigitsValueOfDecimal(a);
      DigitsValueOfDecimal(b);
    }
  }

  /** Frame `n` is named after timestep `indices[n]` and shows its voxels at the threshold. */
  lemma {:induction false} FramesInOrder(ymfs: map<nat, seq<real>>, tss: seq<nat>, threshold: real, n: nat)
    requires forall m :: 0 <= m < |tss| ==> tss[m] in ymfs
    requires n < |tss|
    ensures FramesOf(ymfs, tss, threshold)[n] == FrameOf(ymfs[tss[n]], threshold, tss[n])
  {
    var pre := tss[..|tss| - 1];
    if n < |pre| {
      FramesInOrder(ymfs, pre, threshold, n);
    }
  }

  /**
   * `build_figure_frames` raises exactly when the list is empty or an id has no
   * values; otherwise trace 0 is the first timestep's voxels, trace 1 the
   * visible injectors, there is one frame and one slider step per id, in list
   * order, and the vertical exaggeration is `z_scale`.
   */
  lemma FigureShape(ymfs: map<nat, seq<real>>, indices: seq<nat>, threshold: real, zScale: int)
    ensures FigureOf(ymfs, indices, threshold, zScale) == IndexError <==> indices == []
    ensures FigureOf(ymfs, indices, threshold, zScale) == KeyError
      <==> exists n :: 0 <= n < |indices| && indices[n] !in ymfs
    ensures FigureOf(ymfs, indices, threshold, zScale).Built? ==>
      var fig := FigureOf(ymfs, indices, threshold, zScale).fig;
      && |fig.data| == 2 && fig.aspectZ == zScale
      && fig.data[0] == Co2Trace(ymfs[indices[0]], threshold, indices[0])
      && fig.data[1].visible && fig.data[1].mesh == BoxesMesh(WellBoxes(|Wells|))
      && |fig.frames| == |fig.steps| == |indices|
      && forall n :: 0 <= n < |indices| ==>
           fig.frames[n] == FrameOf(ymfs[indices[n]], threshold, indices[n])
           && fig.steps[n].caption == Decimal(indices[n]) && fig.steps[n].frame == fig.frames[n].name
  {
    var r := FigureOf(ymfs, indices, threshold, zScale);
    if r.Built? {
      forall n | 0 <= n < |indices| ensures r.fig.frames[n] == FrameOf(ymfs[indices[n]], threshold, indices[n]) {
        FramesInOrder(ymfs, indices, threshold, n);
      }
    }
  }

  /** Slider step `n` shows the voxels of timestep `indices[n]`, even when an id is listed twice. */
  lemma SliderShowsTimestep(ymfs: map<nat, seq<real>>, indices: seq<nat>, threshold: real, zScale: int, n: nat)
    requires FigureOf(ymfs, indices, threshold, zScale).Built? && n < |indices|
    ensures var fig := FigureOf(ymfs, indices, threshold, zScale).fig;
      Apply(fig, Animate(fig.steps[n].frame)).data[0] == Co2Trace(ymfs[indices[n]], threshold, indices[n])
  {
    var fig := FigureOf(ymfs, indices, threshold, zScale).fig;
    FigureShape(ymfs, indices, threshold, zScale);
    var name := fig.steps[n].frame;
    var found := FindFrame(fig.frames, name);
    assert found.Some? by {
      assert fig.frames[n].name == name;
    }
    var m := found.value;
    assert fig.frames[m].name == fig.frames[n].name;
    FrameNameInjective(indices[m], indices[n]);
  }

  /** Play without repeat stops on the frame of the last listed timestep. */
  lemma PlayStopsAtLast(ymfs: map<nat, seq<real>>, indices: seq<nat>, threshold: real, zScale: int)
    requires FigureOf(ymfs, indices, threshold, zScale).Built?
    ensures var fig := FigureOf(ymfs, indices, threshold, zScale).fig; var last := indices[|indices| - 1];
      fig.menus[0][0].action == Play(false)
      && Apply(fig, fig.menus[0][0].action).data[0] == Co2Trace(ymfs[last], threshold, last)
  {
    FigureShape(ymfs, indices, threshold, zScale);
  }

  /** The actions of the vertical-exaggeration, colour-floor and injector buttons. */
  predicate Restyling(a: Action) {
    a.Relayout? || a.RestyleCmin? || a.RestyleVisible?
  }

  /**
   * Relayout and restyle buttons never recompute a mesh or intensity list:
   * every trace keeps its mesh and values, the frames stay as built, and only
   * `aspectZ`, `cmin` of trace 0 or `visible` of trace 1 change.
   */
  lemma RestyleKeepsMeshes(fig: Figure, a: Action)
    requires Restyling(a)
    ensures var f := Apply(fig, a);
      && |f.data| == |fig.data| && f.frames == fig.frames && f.steps == fig.steps && f.menus == fig.menus
      && (forall t :: 0 <= t < |fig.data| ==> f.data[t].mesh == fig.data[t].mesh && f.data[t].name == fig.data[t].name)
      && (forall t :: 0 <= t < |fig.data| && fig.data[t].shading.Intensity? ==>
            f.data[t].shading.Intensity? && f.data[t].shading.values == fig.data[t].shading.values)
      && (a.Relayout? ==> f == fig.(aspectZ := a.aspectZ))
      && (a.RestyleCmin? ==> f.aspectZ == fig.aspectZ && forall t :: 1 <= t < |fig.data| ==> f.data[t] == fig.data[t])
      && (a.RestyleVisible? ==> f.aspectZ == fig.aspectZ && forall t :: 0 <= t < |fig.data| && t != 1 ==> f.data[t] == fig.data[t])
  {
  }

  /** Every button of the figure is either an animation or one of the restyling buttons. */
  lemma ButtonsOnlyRestyle(ymfs: map<nat, seq<real>>, indices: seq<nat>, threshold: real, zScale: int, b: nat, n: nat)
    requires FigureOf(ymfs, indices, threshold, zScale).Built?
    requires var fig := FigureOf(ymfs, indices, threshold, zScale).fig; b < |fig.menus| && n < |fig.menus[b]|
    ensures var a := FigureOf(ymfs, indices, threshold, zScale).fig.menus[b][n].action;
      if b == 0 then a == Play(false) || a == Pause else Restyling(a)
  {
    assert FigureOf(ymfs, indices, threshold, zScale).fig.menus == Menus();
    MenusActions(b, n);
  }

  lemma MenusActions(b: nat, n: nat)
    requires b < |Menus()| && n < |Menus()[b]|
    ensures if b == 0 then Menus()[b][n].action == Play(false) || Menus()[b][n].action == Pause
      else Restyling(Menus()[b][n].action)
  {
    var ms := Menus();
    if b == 1 {
      assert ms[1] == ZButtons();
    } else if b == 2 {
      assert ms[2] == FloorButtons();
    }
  }

  /** The vertical-exaggeration and colour-floor buttons carry the listed values, in order. */
  lemma ButtonValues()
    ensures |ZButtons()| == |ZScales| && forall n :: 0 <= n < |ZScales| ==> ZButtons()[n].action == Relayout(ZScales[n])
    ensures |FloorButtons()| == |Floors| && forall n :: 0 <= n < |Floors| ==> FloorButtons()[n].action == RestyleCmin(Floors[n])
  {
  }

  /** An animation's outcome on trace 0 depends only on the frames. */
  lemma AnimateReadsFrames(f1: Figure, f2: Figure, name: string)
    requires f1.frames == f2.frames && f1.data != [] && f2.data != []
    requires FindFrame(f1.frames, name).Some?
    ensures Apply(f1, Animate(name)).data[0] == Apply(f2, Animate(name)).data[0]
  {
  }

  /**
   * A colour floor chosen with a `YMFS ≥` button lasts only until the next
   * animation: every frame carries `cmin = threshold`, which the frame's trace
   * puts back.
   */
  lemma AnimateResetsFloor(ymfs: map<nat, seq<real>>, indices: seq<nat>, threshold: real, zScale: int, floor: real, n: nat)
    requires FigureOf(ymfs, indices, threshold, zScale).Built? && n < |indices|
    ensures var fig := FigureOf(ymfs, indices, threshold, zScale).fig;
      var f := Apply(Apply(fig, RestyleCmin(floor)), Animate(fig.steps[n].frame));
      && |f.data| == 2 && f.data[0] == Co2Trace(ymfs[indices[n]], threshold, indices[n])
      && f.data[0].shading.cmin == threshold
  {
    var fig := FigureOf(ymfs, indices, threshold, zScale).fig;
    FigureShape(ymfs, indices, threshold, zScale);
    SliderShowsTimestep(ymfs, indices, threshold, zScale, n);
    var g := Apply(fig, RestyleCmin(floor));
    RestyleKeepsMeshes(fig, RestyleCmin(floor));
    var name := fig.steps[n].frame;
    assert FindFrame(fig.frames, name).Some? by {
      assert fig.frames[n].name == name;
    }
    AnimateReadsFrames(g, fig, name);
  }
}
