# CO2 reservoir grid-property pipeline — a verified model

This project models the data-handling core of a CO2-storage visualisation
pipeline for a GEOSX reservoir model. The modelled parts are:

- **Exporters.** Per timestep, they write the YMFS (CO2 mole fraction) property as a GRDECL text file. One of them also builds a VTK grid file.
- **Readers.** Two dialects read such files back:
  - one expands run-length `N*V` tokens after a keyword line and stops at the first `/` line;
  - the other takes the first digit-free line as the property name and stops only at a line that is exactly `/`.
- **The web app.** It catalogues the exported timesteps, turns each timestep's cell values into a mesh of voxel cubes (plus four injector cubes), and assembles frames, a slider and restyling buttons.
- **The converters.** They turn numpy property arrays into PFLOTRAN `.inc` include files using:
  - a Z-layer flip;
  - `transpose(2, 1, 0).flatten('F')` or a C-order flatten;
  - m² to millidarcy conversion;
  - a five-values-per-line layout.
- **The initial-pressure generator.** It clips mean-plus-noise pressures to bounds and writes them one per line.
- **The two property-attach scripts.** They place a read property on a grid's cells or points.

Approach throughout:

- File contents are strings. They are split into lines at `\n`, which is how Python iterates over a text file whose line breaks are all `\n`. Tokens are separated by the characters `str.isspace()` accepts (`Text.IsSpace`).
- `float()`, `int()` and the number formats (`{v:15.6f}`, `{val:1.6e}`, `{val:.6f}`) are oracles passed as parameters.
  - `TokenFormatter(fmt)` says the formatter prints number tokens.
  - `Readable(fmt, toFloat)` says `float()` accepts what it prints.
- Every round trip is therefore stated "as `float()` reads the printed text" (`Reread`). `Numbers.RereadExact` turns this into equality when printing is exact.
- Numpy arrays are nested sequences with their shape (`NdArray.Array3`).
- Directories are maps from file name to contents (`YmfsExport.OutputDir`, a class whose `Write` updates its map).
- The grid the properties are attached to is a class with its two attribute tables (`PropertyAttach.PropertyGrid`).
- Loops in the source are `while` loops in methods. Each method is proved equal to a specification function, and the properties are lemmas about those functions.

Modules, by file:

| file | module | models |
|---|---|---|
| text.dfy | Text | `strip`, `split`, line iteration, `:04d` |
| chunks.dfy | Chunking | the `values[j:j+5]` line chunks |
| numbers.dfy | Numbers | the parse and format oracles |
| rlereader.dfy | RleReader | the run-length-encoding reader |
| plainreader.dfy | PlainReader | the plain-token reader |
| grdeclwriter.dfy | GrdeclWriter | the GRDECL writer |
| roundtrip.dfy | GrdeclRoundTrip | the writer/reader round trips |
| timesteps.dfy | Timesteps | `load_all_timesteps` |
| export.dfy | YmfsExport | the YMFS export loop |
| griddims.dfy | GridDims | dimension inference |
| vtkexport.dfy | VtkExport | VTK-export coordinates, fitting and loop |
| voxels.dfy | Voxels | voxel and injector meshes |
| frames.dfy | Frames | the figure, its frames and its buttons |
| ndarray.dfy | NdArray | the numpy array operations |
| incwriter.dfy | IncWriter | the `.inc` keyword blocks |
| incfixed.dfy | IncFixed | the unit-converting `.inc` converter |
| zflip.dfy | ZFlip | the three Z-flip converters |
| pressure.dfy | InitialPressure | the pressure file |
| attach.dfy | PropertyAttach | the property-attach scripts |

## Model

| member | source | states |
|---|---|---|
| RleReader.Repeat | app.py:29 | `[v] * n` has `max(n, 0)` entries, all equal to `v` |
| RleReader.AppendLineValues | app.py:24-36 | the token loop of a data line appends exactly the values its tokens give, or signals the unpacking error |
| RleReader.ReadGrdeclProperty | app.py:10-37 | the line loop with the `reading` flag returns the array the line-by-line specification gives, or the raised `ValueError` |
| RleReader.ScanStep | app.py:15-23 | one line is skipped when blank or `--`, starts reading when it mentions a keyword, stops the read when it starts with `/`, and otherwise contributes its values only while reading |
| RleReader.StopLineEndsRead | app.py:21-22 | nothing after the first line starting with `/` is read, whatever came before it, even before any keyword |
| RleReader.NoKeywordNoValues | app.py:18-23 | a file without a keyword line reads as the empty array |
| RleReader.LinesBeforeKeywordIgnored | app.py:18-23 | numeric lines before the keyword line contribute nothing |
| RleReader.KeywordLineStarts | app.py:18-20 | a line mentioning a keyword starts the data and contributes no value |
| RleReader.SkipLine | app.py:16-17 | blank and `--` lines are passed over |
| RleReader.DataLinesRead | app.py:23-36 | consecutive data lines contribute their values in file order |
| RleReader.RunTokenExpands | app.py:26-29 | `count*value` appends exactly `count` copies of `float(value)` |
| RleReader.BadRunTokenSkipped | app.py:28-31 | a one-star token whose value or count fails to parse, or whose count is not positive, adds nothing |
| RleReader.TwoStarsRaise | app.py:27 | a token with two `*` makes the unpacking outside the `try` raise |
| RleReader.RaiseAbortsRead | app.py:27 | once reading, the raise of one token ends the whole read with the exception |
| RleReader.ExampleRunLengthLine | app.py:24-36 | the line `3*0.5 0.2 2*1.0` yields `[0.5, 0.5, 0.5, 0.2, 1.0, 1.0]` |
| RleReader.ExampleRunLengthTokens | app.py:25-36 | the three tokens of that line expand to three, one and two values |
| RleReader.ThreeTokens | app.py:25-36 | the token values are concatenated in token order |
| RleReader.IndexOf | app.py:27 | the position of the first `*` in a token |
| PlainReader.ReadGrdeclProperty | scripts/load_grdecl.py:23-58 | the line loop with `property_name_found` returns the list the line-by-line specification gives; the same code is scripts/save_vtk.py:26-55 |
| PlainReader.AppendFloats | scripts/load_grdecl.py:50-56 | the token loop appends exactly the tokens `float()` accepts, in order |
| PlainReader.PlainStopLineEndsRead | scripts/load_grdecl.py:39-40 | only a line that is exactly `/` ends the read; nothing after it counts |
| PlainReader.TrailingSlashLineIsData | scripts/save_vtk.py:38-53 | a line such as `0.1 0.2 /` does not stop the read; its float tokens are read |
| PlainReader.LinesBeforeNameIgnored | scripts/load_grdecl.py:43-49 | lines with a digit before the name line contribute nothing |
| PlainReader.NameLineStarts | scripts/load_grdecl.py:43-46 | the first digit-free line is the name and contributes no values |
| PlainReader.PlainSkipLine | scripts/save_vtk.py:35-36 | blank and `--` lines are passed over |
| PlainReader.ValueLinesRead | scripts/load_grdecl.py:49-56 | value lines after the name contribute their float tokens in order |
| PlainReader.TokenFloatsAllParse | scripts/save_vtk.py:46-53 | tokens that all parse give one value each, in order: no `N*V` expansion |
| Chunking.ChunksShape | scripts/export_ymfs_geosx.py:112-113 | `ceil(n/5)` chunks, chunk `m` is `values[5m:5m+5]`, only the last can be shorter |
| Chunking.FlattenChunks | scripts/export_ymfs_geosx.py:112-114 | the chunks concatenate to the value list: no value lost, repeated or moved |
| GrdeclWriter.WriteYmfsGrdecl | scripts/export_ymfs_geosx.py:108-115 | the writer loop produces the comment line, `YMFS`, one line per chunk of five fields and the `/` line |
| GrdeclWriter.DataLineSplit | scripts/export_ymfs_geosx.py:114 | a data line, stripped and split, gives back the printed numbers of its chunk |
| GrdeclWriter.DataLineStrip | scripts/export_ymfs_geosx.py:114 | stripping a data line removes exactly the width padding of its first field |
| GrdeclRoundTrip.ExportedLines | scripts/export_ymfs_geosx.py:109-115 | line 1 of the file is the `--` comment, line 2 is `YMFS`, then the data lines, then `/` |
| GrdeclRoundTrip.GrdeclRoundTrip | scripts/export_ymfs_geosx_to_vtk.py:35-63 | an RLE reader whose keywords include one matched by `YMFS` reads every written value back in order |
| GrdeclRoundTrip.AppReadsExport | app.py:10-37 | the app's reader reads an exported file back |
| GrdeclRoundTrip.ConverterReadsExport | scripts/export_ymfs_geosx_to_vtk.py:379-386 | the converter's own reader reads its temporary GRDECL file back |
| GrdeclRoundTrip.PlainReadsExport | scripts/load_grdecl.py:23-58 | the plain-token reader also reads an exported file back |
| Numbers.RereadExact | scripts/export_ymfs_geosx.py:114 | when printing is exact, the round trips give the values themselves |
| Timesteps.LoadAllTimesteps | app.py:137-154 | a missing directory gives `({}, [])`; otherwise `idxs` are the matched ids sorted, `data` holds each id's values, or a read raises |
| Timesteps.SearchTsLeftmost | app.py:146 | `re.search(r'ts_(\d+)')` finds the leftmost `ts_` followed by a digit, or none exists |
| Timesteps.TsIdAfter | app.py:146-149 | a name `pre + "ts_" + digits + rest` carries the id `int(digits)` |
| Timesteps.TsIdOfFileName | scripts/export_ymfs_geosx.py:107 | the name `YMFS_ts_{i:04d}.GRDECL` carries the id `i` that `ts_(\d+)` reads back |
| Timesteps.FileNameInjective | scripts/export_ymfs_geosx.py:107 | distinct timesteps get distinct file names |
| Timesteps.GlobMatchFileName | app.py:142 | exported file names pass the `YMFS_ts_*.GRDECL` glob |
| Timesteps.SortAscending | app.py:153 | `idxs.sort()` gives an ascending permutation |
| Timesteps.Insert | app.py:153 | inserting into a sorted list keeps it sorted and adds exactly one element |
| Timesteps.SortedUnique | app.py:153 | two sorted lists with the same ids are equal |
| Timesteps.ReadRaisedStays | app.py:150 | once a read raises, later files do not matter |
| Timesteps.CatalogueKeys | app.py:151-152 | the keys of `data` are exactly the ids appended to `idxs` |
| Timesteps.CatalogueOfNamed | app.py:145-152 | files with distinct ids that read cleanly are all filed under their ids, in listing order |
| Timesteps.CatalogueOfExport | app.py:145-152 | a directory of exported files is catalogued with every timestep's read-back values |
| Timesteps.LoadedIdsOfExport | app.py:153 | after sorting, the ids of an ascending export are the exported ids |
| YmfsExport.OutputDir.constructor | scripts/export_ymfs_geosx.py:108 | a directory holds the files it starts with |
| YmfsExport.OutputDir.Write | scripts/export_ymfs_geosx.py:108-115 | opening a file for writing creates or replaces exactly that file |
| YmfsExport.ExportYmfsTimesteps | scripts/export_ymfs_geosx.py:92-127 | the loop adds exactly the files of the written timesteps and returns `exported_count` |
| YmfsExport.ExportsKeys | scripts/export_ymfs_geosx.py:105-107 | a file exists for timestep `i` if and only if its value list was non-empty |
| YmfsExport.ExportsNames | scripts/export_ymfs_geosx.py:107 | every written file is named after a written timestep |
| YmfsExport.ExportsContent | scripts/export_ymfs_geosx.py:107-115 | the file of timestep `i` holds its header, values and `/`, and no later write replaces it |
| YmfsExport.ExportCountIsFileCount | scripts/export_ymfs_geosx.py:117 | `exported_count` equals the number of files written |
| YmfsExport.ExportedFileReadsBack | scripts/export_ymfs_geosx.py:115 | every written file reads back as its timestep's values |
| GridDims.ISqrt | scripts/export_ymfs_geosx_to_vtk.py:216 | the integer square root `r` with `r*r <= n < (r+1)*(r+1)` |
| GridDims.FirstFit | scripts/export_ymfs_geosx_to_vtk.py:204-208 | the first preset whose product is the cell count (and `nz > 0`), or none fits |
| GridDims.InferDims | scripts/export_ymfs_geosx_to_vtk.py:194-229 | the table, then the divisor search with 25 layers, then the estimate, or `ZeroDivisionError` below 25 cells |
| GridDims.GeosxShape | scripts/export_ymfs_geosx_to_vtk.py:197-208 | 44800 cells give 64 × 28 × 25 |
| GridDims.OneDivides | scripts/export_ymfs_geosx_to_vtk.py:216-222 | for a multiple of 25 the search always finds a divisor |
| GridDims.DivisorShape | scripts/export_ymfs_geosx_to_vtk.py:216-220 | the shape found holds every cell and has `1 <= ny <= nx` |
| GridDims.NoLargerDivisor | scripts/export_ymfs_geosx_to_vtk.py:216-222 | the search returns the largest divisor up to the square root |
| GridDims.EstimateFits | scripts/export_ymfs_geosx_to_vtk.py:226-228 | the estimate never claims more cells than there are |
| VtkExport.Reshape | scripts/export_ymfs_geosx_to_vtk.py:246 | `reshape(-1, 3)` takes consecutive triples as points |
| VtkExport.UnreshapeReshape | scripts/export_ymfs_geosx_to_vtk.py:246 | reshaping loses no coordinate of a list whose length is a multiple of three |
| VtkExport.FlatCentersDiscarded | scripts/export_ymfs_geosx_to_vtk.py:236-250 | as written, a flat coordinate list is never used |
| VtkExport.FlatCentersExample | scripts/export_ymfs_geosx_to_vtk.py:236-246 | one cell with a flat centre: discarded as written, used as intended |
| VtkExport.CoordsPointPerCell | scripts/export_ymfs_geosx_to_vtk.py:236-256 | the corrected test uses centres exactly when they give one point per cell, with no number lost |
| VtkExport.ShapeMatchesCoords | scripts/export_ymfs_geosx_to_vtk.py:269-285 | with real coordinates the shape is the unique counts minus one; without them the inferred shape stays |
| VtkExport.Reconciled | scripts/export_ymfs_geosx_to_vtk.py:409-416 | exactly `n` values, the original prefix kept and zeros after |
| VtkExport.ReconcileLength | scripts/export_ymfs_geosx_to_vtk.py:409-416 | the truncate-or-pad block, with its in-place copy loop, computes the fitted list |
| VtkExport.ReconciledIdempotent | scripts/export_ymfs_geosx_to_vtk.py:409-416 | fitting leaves a list unchanged if and only if it already has `n` values; fitting twice is fitting once |
| VtkExport.AttachYmfs | scripts/export_ymfs_geosx_to_vtk.py:393-421 | cell data when one value per cell, else point data when one per point, else fitted cell data |
| VtkExport.ExportVtkTimesteps | scripts/export_ymfs_geosx_to_vtk.py:361-434 | the loop writes the GRDECL and VTK files of every timestep with values and counts those whose report line does not raise |
| VtkExport.ExportVtkTimestep | scripts/export_ymfs_geosx_to_vtk.py:379-429 | one timestep writes its GRDECL file, its VTK file, and is counted unless `min` raises |
| VtkExport.VtkFileNameInjective | scripts/export_ymfs_geosx_to_vtk.py:424 | distinct timesteps get distinct VTK file names |
| VtkExport.TsIdOfVtkFileName | scripts/export_ymfs_geosx_to_vtk.py:424 | the VTK name carries the timestep id |
| VtkExport.VtkExportsContent | scripts/export_ymfs_geosx_to_vtk.py:374-425 | a VTK file exists exactly for the timesteps with values and holds their attached array |
| VtkExport.VtkCountWithCells | scripts/export_ymfs_geosx_to_vtk.py:428-429 | on a grid with cells every written timestep is counted; never more than the written ones |
| VtkExport.MinRaisesExactly | scripts/export_ymfs_geosx_to_vtk.py:428 | `min` raises exactly when a grid without cells gets values that match no point count |
| Voxels.Padded | app.py:50-54 | a short list is zero-padded to `nx*ny*nz`, a longer one kept whole |
| Voxels.IndexInGrid | app.py:61-64 | every visited `idx = i + j*nx + k*nx*ny` lies below `nx*ny*nz` |
| Voxels.AppendFaces | app.py:89-93 | the face loop appends the 12 template triangles offset by `base` |
| Voxels.VisitCell | app.py:64-94 | a cell becomes a cube and 12 intensities exactly when its value reaches the threshold |
| Voxels.VisitRow | app.py:63-94 | the `i` loop appends the row's drawable cells in ascending `i` |
| Voxels.VisitLayer | app.py:62-94 | the `j` loop appends the layer's rows in ascending `j` |
| Voxels.BuildVoxels | app.py:40-95 | `build_voxels_from_values` gives the mesh and intensities of the drawable cells in `k`, `j`, `i` order, or `ZeroDivisionError` |
| Voxels.GridMembers | app.py:61-65 | a voxel is listed if and only if its cell was visited and its value is `>= threshold` |
| Voxels.VoxelsExactlyDrawable | app.py:61-65 | the drawn voxels are exactly the visited cells of the padded list reaching the threshold |
| Voxels.PaddedCellsAreZero | app.py:51-54 | cells past a short list read as zero |
| Voxels.GridDistinct | app.py:61-63 | no cell is drawn twice |
| Voxels.FacesLocal | app.py:84-88 | 12 triangles, all on local corners 0..7 |
| Voxels.BoxesMeshCubes | app.py:80-94 | `n` cubes give 8n vertices and 12n triangles, each triangle on its own cube's 8 vertices |
| Voxels.BoxesMeshVertices | app.py:70-82 | vertices `8c..8c+7` are the corners of box `c` |
| Voxels.BoxesWithin | app.py:70-82 | boxes inside a region give vertices inside it |
| Voxels.ShadesOfVoxels | app.py:93 | 12 intensities per voxel, each its voxel's value |
| Voxels.VoxelMeshShape | app.py:80-94 | for `N` voxels: 8N vertex coordinates per axis, 12N triangles in range, 12N intensities |
| Voxels.VoxelCubeIsCellBox | app.py:67-79 | cube `c` is the box of voxel `c`'s cell |
| Voxels.CellBoxInside | app.py:42-48 | every visited cell's box lies inside [0,10000] × [0,10000] × [-2700,-2500] |
| Voxels.VoxelsInDomain | app.py:42-79 | all voxel vertices lie inside the axis ranges of the figure |
| Voxels.BuildInjectorCubes | app.py:98-134 | one cube per well, `base` growing by 8 |
| Voxels.InjectorShape | app.py:105-133 | 32 vertices, 48 triangles, every vertex the well centre ± 100 on each axis |
| Voxels.InjectorsAboveTop | app.py:99-106 | the injector cubes stand inside the block horizontally but reach 100 m above its top |
| Frames.Co2Trace | app.py:181-187 | the CO2 trace is shaded from the threshold to 1.0 |
| Frames.BuildCo2Trace | app.py:181-187 | the trace is built from the default-grid voxels of the timestep |
| Frames.FramesOf | app.py:180-187 | one frame per listed timestep |
| Frames.SliderSteps | app.py:241-244 | one slider step per id, labelled `str(ts)`, animating to `ts{ts}` |
| Frames.BuildFigureFrames | app.py:157-247 | the method builds the figure of the specification, or raises `IndexError` (no ids) or `KeyError` (missing id) |
| Frames.BuildFrames | app.py:180-187 | the frame loop stops at the first id with no data (the `KeyError` of `ymfs_dict[ts]`), every earlier id having data; otherwise it yields the frames of every id, in order |
| Frames.FigureShape | app.py:160-245 | `IndexError` if and only if no ids; `KeyError` if and only if an id has no data; otherwise two traces, one frame and one step per id, aspect `z_scale` |
| Frames.FramesInOrder | app.py:180-187 | frame `n` is named `ts{indices[n]}` and shows that timestep's voxels |
| Frames.FrameNameInjective | app.py:182 | frame names `ts{a}` and `ts{b}` agree if and only if `a == b` |
| Frames.SliderShowsTimestep | app.py:241-244 | slider step `n` shows timestep `indices[n]` |
| Frames.PlayStopsAtLast | app.py:205-207 | play without repeat ends on the last timestep's frame |
| Frames.RestyleKeepsMeshes | app.py:213-236 | the Z, floor and injector buttons change only aspect, `cmin` or visibility, never a mesh |
| Frames.ButtonsOnlyRestyle | app.py:201-236 | every button is play, pause or a restyling one |
| Frames.ButtonValues | app.py:215-229 | the Z buttons carry 1, 5, 8, 10, 15, 20 and the floor buttons 0.05 to 0.30 |
| Frames.AnimateReadsFrames | app.py:205-244 | an animation's effect on the CO2 trace depends only on the frames |
| Frames.AnimateResetsFloor | app.py:182-229 | animating back to a frame restores the floor to the threshold |
| Frames.FindFrame | app.py:242 | the first frame with a given name, or none has it |
| Frames.LoadedIdsHaveData | app.py:260-265 | every catalogued id has its values, so the figure never raises `KeyError` from `main` |
| Frames.ShowApp | app.py:250-265 | `main` shows the figure at threshold 0.10 and exaggeration 1, or reports that no timesteps exist |
| NdArray.Component | data/geosx/new_simulation/convert_npy_to_inc_fixed.py:38-40 | `data[:, :, :, c]` exists if and only if `-d3 <= c < d3` and holds that component of every cell |
| NdArray.Reshape | data/geosx/new_simulation/convert_npy_to_inc_fixed.py:45-46 | `reshape` lays C-order values out in the new shape |
| NdArray.ReshapeKeepsOrder | data/geosx/new_simulation/convert_npy_to_inc_fixed.py:46 | reading a reshaped array in C order gives the values back |
| NdArray.FlipZ | data/geosx/new_simulation/convert_npy_correct_order.py:13 | layer `z` of the result is layer `nz-1-z`; rows and columns unchanged |
| NdArray.FlipZTwice | data/geosx/new_simulation/convert_npy_fixed.py:13 | flipping twice gives the array back |
| NdArray.FlippedAt | data/geosx/new_simulation/convert_npy_fixed.py:13-16 | `flat[z*ny*nx + y*nx + x] == data[nz-1-z][y][x]` |
| NdArray.FlipZPermutes | data/geosx/new_simulation/convert_npy_fixed.py:13-16 | the flip moves values only (same multiset) |
| NdArray.Transpose210 | data/geosx/new_simulation/convert_npy_correct_order.py:18 | shape `(nx, ny, nz)` with `t[x, y, z] == a[z, y, x]` |
| NdArray.FFlattenAt | data/geosx/new_simulation/convert_npy_correct_order.py:22 | Fortran order puts `a[i, j, k]` at `(k*d1 + j)*d0 + i` |
| NdArray.CFlattenAt | data/geosx/new_simulation/convert_npy_fixed.py:16 | C order puts `a[z, y, x]` at `(z*d1 + y)*d2 + x` |
| NdArray.FortranOfTransposed | data/geosx/new_simulation/convert_npy_correct_order.py:18-22 | `transpose(2,1,0).flatten('F')` is the C flatten of the array |
| NdArray.Decompose | data/geosx/new_simulation/convert_npy_correct_order.py:22 | every position below the size is the C-order position of exactly one index triple |
| NdArray.FlipOuter | data/geosx/new_simulation/convert_npy_fixed.py:13 | `[::-1]` on an array of another rank keeps the length and the multiset of values |
| IncWriter.EnumerateValues | data/geosx/new_simulation/convert_npy_correct_order.py:47-50 | the `enumerate` loop writes every entry with a break after each fifth, and leaves `i` at the last index (unbound for no values) |
| IncWriter.WriteKeywordBlock | data/geosx/new_simulation/convert_npy_correct_order.py:34-41 | a block is the keyword, the values, a final break if and only if the count is not a multiple of 5, and `/`; it raises `NameError` when `i` was never bound |
| IncWriter.WriteSingleBlock | data/geosx/new_simulation/convert_npy_to_inc_inverted_z.py:22-30 | the inverted-Z writer gives exactly one keyword block, or `NameError` for no values |
| IncWriter.WritePermOrPoro | data/geosx/new_simulation/convert_npy_fixed.py:23-46 | three blocks `PERMX`, `PERMY`, `PERMZ` with a blank line between two, or one `PORO` block |
| IncWriter.KeywordFile | data/geosx/new_simulation/convert_npy_to_inc_inverted_z.py:22-30 | the file raises if and only if there are no values |
| IncWriter.PermOrPoroFile | data/geosx/new_simulation/convert_npy_correct_order.py:30-53 | the file raises if and only if there are no values |
| IncWriter.ValueTextLines | data/geosx/new_simulation/convert_npy_correct_order.py:35-38 | the loop text is the whole lines so far, then the line in progress |
| IncWriter.BodyLines | data/geosx/new_simulation/convert_npy_correct_order.py:35-40 | the values form `ceil(n/5)` lines, line `m` holding entries `5m..5m+4` |
| IncWriter.BlockLayout | data/geosx/new_simulation/convert_npy_to_inc_inverted_z.py:23-30 | the lines of a block are the keyword, the value lines and `/` |
| IncWriter.BlockReadsBack | data/geosx/new_simulation/convert_npy_to_inc_inverted_z.py:22-30 | the name-triggered reader reads a block's values back |
| IncWriter.PermLayout | data/geosx/new_simulation/convert_npy_correct_order.py:33-43 | the permeability file is three blocks, each ending in `/`, with a blank line between two and none after `PERMZ` |
| IncWriter.PermFileReadsFirstBlock | data/geosx/new_simulation/convert_npy_fixed.py:24-36 | the plain reader of a permeability file returns the first block's values |
| IncWriter.PermKeywordsAreKeywords | data/geosx/new_simulation/convert_npy_fixed.py:26 | the keywords are `PERMX`, `PERMY`, `PERMZ`, each one a name line to the reader |
| IncFixed.ToMilliDarcy | data/geosx/new_simulation/convert_npy_to_inc_fixed.py:68 | the converted value times 9.869233e-16 is the value in m² |
| IncFixed.Shown | data/geosx/new_simulation/convert_npy_to_inc_fixed.py:65-72 | `PERM` names are converted to mD, others written unchanged |
| IncFixed.ShownAll | data/geosx/new_simulation/convert_npy_to_inc_fixed.py:62-72 | every value is shown in order |
| IncFixed.FitFlat | data/geosx/new_simulation/convert_npy_to_inc_fixed.py:45-48 | reshape if and only if the size is `nx*ny*nz`, else `ValueError` |
| IncFixed.FitGrid | data/geosx/new_simulation/convert_npy_to_inc_fixed.py:43-48 | the prepared array has shape `(nz, ny, nx)` |
| IncFixed.IncGrid | data/geosx/new_simulation/convert_npy_to_inc_fixed.py:38-48 | the component cut, then the shape check, give an array of shape `(nz, ny, nx)` |
| IncFixed.IncGridOutcome | data/geosx/new_simulation/convert_npy_to_inc_fixed.py:38-48 | preparation fails exactly when the cut or the size check fails, with the matching exception; a successful one keeps the C-order values |
| IncFixed.FitGridOutcome | data/geosx/new_simulation/convert_npy_to_inc_fixed.py:43-48 | an array of the right shape is kept; another one reshaped if and only if the sizes agree |
| IncFixed.WriteValue | data/geosx/new_simulation/convert_npy_to_inc_fixed.py:62-78 | one value is written (converted for `PERM`), counted, and followed by a break when it is the fifth on its line |
| IncFixed.WriteRow | data/geosx/new_simulation/convert_npy_to_inc_fixed.py:61-78 | the `x` loop writes the row's values in order |
| IncFixed.WriteLayer | data/geosx/new_simulation/convert_npy_to_inc_fixed.py:60-78 | the `y` loop writes the layer's rows in order |
| IncFixed.WriteGrid | data/geosx/new_simulation/convert_npy_to_inc_fixed.py:51-82 | the name line, then the z/y/x values in C order with the line-break rule; the count is `nx*ny*nz` |
| IncFixed.ConvertNpyToInc | data/geosx/new_simulation/convert_npy_to_inc_fixed.py:37-82 | the converter leaves the file of the specification, or raises; a written file holds `nx*ny*nz` values |
| IncFixed.IncFileLayout | data/geosx/new_simulation/convert_npy_to_inc_fixed.py:53-82 | a written file is the name line and `ceil(n/5)` value lines, with no `/` |
| IncFixed.IncFileReadsBack | data/geosx/new_simulation/convert_npy_to_inc_fixed.py:51-82 | the name-triggered reader returns the converted values to the end of the file |
| IncFixed.HeaderAndBodyRead | data/geosx/new_simulation/convert_npy_to_inc_fixed.py:53-82 | without a `/` line the reader reads to the end of the file |
| ZFlip.Slab | data/geosx/new_simulation/convert_npy_correct_order.py:7-10 | component 0 of a 4-D array, the array itself in 3-D; `IndexError` if and only if the array has no component |
| ZFlip.Scaled | data/geosx/new_simulation/convert_npy_fixed.py:18-20 | multiplying by `1/9.869233e-16` gives the mD values when converting; no change otherwise |
| ZFlip.ConvertCorrectOrder | data/geosx/new_simulation/convert_npy_correct_order.py:3-53 | the converter leaves the file of the specification |
| ZFlip.ConvertFull | data/geosx/new_simulation/convert_npy_fixed.py:3-46 | the converter leaves the file of the specification |
| ZFlip.ConvertInvertedZ | data/geosx/new_simulation/convert_npy_to_inc_inverted_z.py:3-30 | the converter leaves the file of the specification |
| ZFlip.CorrectOrderIsCOrder | data/geosx/new_simulation/convert_npy_correct_order.py:18-22 | despite its comment, the correct-order converter writes exactly the file of `convert_npy_to_inc_full` |
| ZFlip.PreparationErrors | data/geosx/new_simulation/convert_npy_correct_order.py:7-22 | which arrays each preparation refuses, and with which exception |
| ZFlip.FlippedAtIndex | data/geosx/new_simulation/convert_npy_to_inc_inverted_z.py:12-15 | `flat[z*ny*nx + y*nx + x] == data[nz-1-z][y][x]`, and the length is the cell count |
| ZFlip.FlipPermutes | data/geosx/new_simulation/convert_npy_correct_order.py:13-22 | what is written is a permutation of what was loaded |
| ZFlip.PermOrPoroReadsBack | data/geosx/new_simulation/convert_npy_fixed.py:23-46 | the plain reader reads the first block of a written file back |
| ZFlip.BlockFilesReadBack | data/geosx/new_simulation/convert_npy_correct_order.py:30-53 | the written files of both block converters read back as the scaled prepared values |
| ZFlip.InvertedZReadsBack | data/geosx/new_simulation/convert_npy_to_inc_inverted_z.py:22-30 | a written inverted-Z file reads back as the scaled flipped values |
| InitialPressure.Clip | data/geosx/new_simulation/generate_initial_pressure.py:15 | the result lies in [50, 150]; the value itself inside, the nearer bound outside |
| InitialPressure.Pressure | data/geosx/new_simulation/generate_initial_pressure.py:14-15 | each cell is the mean plus its noise, clipped |
| InitialPressure.WriteValues | data/geosx/new_simulation/generate_initial_pressure.py:18-21 | the write loop gives the `PRESSURE` header and one value per line |
| InitialPressure.GenerateInitialPressure | data/geosx/new_simulation/generate_initial_pressure.py:13-23 | the file holds the clipped values in transposed Fortran order, and their count is `NX*NY*NZ` |
| InitialPressure.PressureIsCOrder | data/geosx/new_simulation/generate_initial_pressure.py:17 | the written order is the C flatten of the clipped array |
| InitialPressure.PressureCount | data/geosx/new_simulation/generate_initial_pressure.py:5 | exactly 44800 values |
| InitialPressure.PressureAt | data/geosx/new_simulation/generate_initial_pressure.py:17 | value `z + NZ*y + NZ*NY*x` is the clipped pressure of cell `[x, y, z]` |
| InitialPressure.PressureBounds | data/geosx/new_simulation/generate_initial_pressure.py:8-9 | every written value lies in [50, 150] |
| InitialPressure.PressureLayout | data/geosx/new_simulation/generate_initial_pressure.py:19-21 | the file's lines are the header and one line per value, with no `/` |
| InitialPressure.PressureReadsBack | data/geosx/new_simulation/generate_initial_pressure.py:19-21 | the name-triggered reader reads every written value back |
| InitialPressure.GeneratedFileReadsBack | data/geosx/new_simulation/generate_initial_pressure.py:14-21 | the generated file reads back as the clipped pressures in C order |
| PropertyAttach.Place | scripts/load_grdecl.py:126-144 | cells if and only if the length matches the cell count; points if and only if it does not but matches the point count |
| PropertyAttach.CellsFirst | scripts/save_vtk.py:95-106 | the cell test takes precedence |
| PropertyAttach.PropertyGrid.constructor | scripts/load_grdecl.py:76 | a grid starts with empty attribute tables |
| PropertyAttach.PropertyGrid.AttachProperty | scripts/load_grdecl.py:126-144 | an array goes into the table the size test picks, or nowhere; nothing else changes |
| PropertyAttach.Attaches | scripts/load_grdecl.py:115-146 | a property is placed only when its file exists and, in `load_grdecl.py`, it has values |
| PropertyAttach.LoadGrdeclMain | scripts/load_grdecl.py:113-149 | the property loop leaves the tables and `loaded_properties` of the specification |
| PropertyAttach.SaveVtkMain | scripts/save_vtk.py:90-108 | the property loop leaves the tables of the specification |
| PropertyAttach.RunCells | scripts/load_grdecl.py:126-130 | the cell table is the old one with the arrays placed on cells laid over it |
| PropertyAttach.RunPoints | scripts/save_vtk.py:100-103 | the point table is the old one with the arrays placed on points laid over it |
| PropertyAttach.RunLoadedMap | scripts/load_grdecl.py:113-144 | `loaded_properties` gains exactly the attached properties with their values |
| PropertyAttach.RunKeepsSized | scripts/save_vtk.py:95-106 | every array in a table keeps the size the table demands |
| PropertyAttach.RunKeepsMirrored | scripts/load_grdecl.py:126-144 | `loaded_properties` stays in step with the tables |
| PropertyAttach.ScriptsAgree | scripts/save_vtk.py:90-108 | on a grid with cells and points, the two scripts attach the same arrays in the same places |
| PropertyAttach.EmptyPropertyOnEmptyGrid | scripts/load_grdecl.py:122 | on a grid without cells, an empty property is attached by `save_vtk.py` but not by `load_grdecl.py` |

## Left out

- ResInsight client calls (`rips`, `active_cell_property`, `time_steps`, `cell_centers`, `load_case`): their results are inputs (`YmfsExport.Fetch`, the cell count, `VtkExport.CellCenters`). Their failures are the `FetchRaised` case.
- PyVista and Plotly object construction (`StructuredGrid`, `meshgrid`, `np.unique`, `save`, `read_grdecl`, `go.Figure`):
  - only the arrays handed to them are modelled;
  - a VTK file is the YMFS array and where it sits;
  - the grid given to the attach scripts is its cell and point counts.
- File-system I/O (`open`, `glob`, `mkdir`, `np.load`): files are strings, directories are maps, and a listing is given already in `sorted()` order.
  - A write never fails (`YmfsExport.OutputDir.Write`). In the export scripts an `open` or `write` error inside the per-timestep `try` can leave a partial file, is not counted in `exported_count`, and the loop goes on. Only a failed fetch (`FetchRaised`) is modelled as a failing timestep, in `YmfsExport.ExportYmfsTimesteps` and `VtkExport.ExportVtkTimestep`.
- Text.Lines: Python's text mode also ends a line at a lone `\r` and at `\r\n` (universal newlines); the model breaks lines only at `\n`. A file that uses `\r` line breaks is therefore read by the model as fewer, longer lines than the scripts see.
- Printing: the exact number formats are oracles, and every `print` diagnostic is left out.
- `float()`/`int()` acceptance (exponents, `nan`, `inf`, underscores) is an oracle. Unicode digits in `\d` and `isdigit` are taken to be ASCII digits.
- `np.sqrt` is the exact integer square root.
- Voxels.CellBoxInside: cell sizes use exact real arithmetic; floating-point rounding of the vertex coordinates is not modelled.
- IncFixed.ToMilliDarcy: the mD conversion is exact real division, not bit-exact float division.
- ZFlip.Scaled: multiplying by `1.0 / 9.869233e-16` is modelled as the same number as dividing, which floating point does not guarantee.
- The random pressure noise (`rng.normal` with seed 42) is an input array.
- Voxels.BuildVoxels: grid sizes are natural numbers, so negative `nx`/`ny`/`nz` (Python's negative-step ranges) are not modelled.
- The `log10` colour scaling and the static slice viewers are not part of the core.
- Client-side rendering (WebGL, animation timing, the Streamlit page) is left out. An animation takes the first frame with the requested name.
- `hasattr(..., 'cell_data')` / `cell_arrays` fallbacks for old PyVista versions are taken as the same assignment.
- scripts/load_grdecl.py:145-146 (`grid is None`) is unreachable, because the loading failures return earlier. It is not modelled.
- PropertyAttach.LoadGrdeclMain: the only exception of the property loop modelled is `min()` of an empty array (skipped by the `try`). Exceptions from file reading are taken not to happen.
- scripts/export_timesteps_resinsight.py and the other plotting and diagnostic scripts are not part of this model.

## Findings

| source | as written | input that shows it | evidently intended | confidence | as-written member | corrected member |
|---|---|---|---|---|---|---|
| scripts/export_ymfs_geosx_to_vtk.py:236-246 | the outer test demands `len(cell_centers) == total_cells`; a flat list is reshaped only if its length is `3 * total_cells`; both can hold only for zero cells, so real coordinates given as a flat list are always discarded | a flat list `[100.0, 200.0, 2650.0]` for one cell | a flat list of `3 * total_cells` numbers gives `total_cells` points | not executed | VtkExport.FlatCentersDiscarded | VtkExport.CoordsPointPerCell |
