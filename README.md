# Software rasteriser core, modelled in Dafny

This project models the CPU rendering core of a small C software renderer.
That core covers:

- clipping each triangle against the six planes of the view frustum;
- fanning the clipped polygon back into triangles;
- scan-converting triangles into a colour buffer guarded by a depth buffer, either flat-shaded or textured with perspective-correct texture coordinates;
- the frame store's primitives: pixel, line, rectangle, grid and clears;
- the camera state and its look-at query;
- the vector algebra everything else is built on.

Single-precision floats are modelled as reals. The C conversions are explicit:

- `(int)r` is `Raster.Trunc`, which truncates toward zero;
- `round` is `Display.Round`, which rounds half away from zero;
- `abs` is `Display.Abs`.

Trigonometry, the rotation-matrix constructors and the global frustum-plane table are not modelled as code. They become parameters of the functions that use them.

Each module follows one source file:

| module | file | form |
|---|---|---|
| `Vector` | `vector.dfy` | pure functions on `Vec2`/`Vec3`/`Vec4`/`Tex2` values |
| `Matrix` | `matrix.dfy` | the 4x4 products the camera needs (helper; the matrix file is not part of this model) |
| `Camera` | `camera.dfy` | class `CameraState`, whose setters update fields in place |
| `Display` | `display.dfy` | datatype `Frame` (the buffers as values) and class `Screen` (the buffers as arrays) |
| `Raster` | `triangle.dfy` | per-pixel shading, vertex sort, scanline loops; every method on `Screen` is proved against `Paint`/`PlotAll` on `Frame` |
| `Clipping` | `clipping.dfy` | class `Polygon` (fixed-capacity vertex array); the sweep is proved against the function `Clip` |

## Model

| member | source | states |
|---|---|---|
| Vector.Vec2Div | src/vector.c:44-51 | dividing by a nonzero factor is undone by multiplying by it |
| Vector.Vec3Div | src/vector.c:117-125 | dividing by a nonzero factor is undone by multiplying by it |
| Vector.Vec4FromVec3 | src/vector.c:173-182 | promotion sets w = 1, and demoting the result with vec3_from_vec4 gives the input back |
| Vector.Vec4RoundTrip | src/vector.c:173-192 | vec3_from_vec4 after vec4_from_vec3 is the identity, and w is 1 |
| Vector.Vec2FromVec4Keeps | src/vector.c:194-200 | the 2D projection keeps x and y and ignores z and w |
| Vector.Vec3AddSubInverse | src/vector.c:87-105 | vec3_sub undoes vec3_add, and vec3_add undoes vec3_sub |
| Vector.Vec2AddSubInverse | src/vector.c:17-33 | vec2_sub undoes vec2_add, and vec2_add undoes vec2_sub |
| Vector.CrossOrthogonal | src/vector.c:127-139 | the cross product is orthogonal to both arguments |
| Vector.CrossAntiCommutative | src/vector.c:127-135 | swapping the arguments negates the cross product; a vector crossed with itself is zero |
| Vector.DotSymmetric | src/vector.c:53-55 | vec2_dot and vec3_dot are symmetric |
| Vector.RotationsKeepLength | src/vector.c:77-167 | rotation about x, y or z keeps the squared length whenever sin² + cos² = 1 |
| Vector.RotationXKeepsLength | src/vector.c:77-85 | rotation about the x axis keeps the squared length whenever sin² + cos² = 1 |
| Vector.RotationYKeepsLength | src/vector.c:149-157 | rotation about the y axis keeps the squared length whenever sin² + cos² = 1 |
| Vector.RotationZKeepsLength | src/vector.c:159-167 | rotation about the z axis keeps the squared length whenever sin² + cos² = 1 |
| Vector.PlaneRotationKeepsLength | src/vector.c:159-167 | turning a coordinate pair by (sin, cos) keeps the sum of its squares |
| Vector.DotLinear | src/vector.c:137-139 | the dot product of a lerped point with a normal is the lerp of the two dot products |
| Matrix.MulIdentity | src/camera.c:69-70 | the identity is a right unit of the matrix product, so the pitch step leaves the pitch matrix |
| Matrix.MulMat4Vec4 | src/camera.c:69-75 | multiplying by the product matrix equals multiplying by each factor in turn |
| Matrix.RotationMatchesVector | src/vector.c:77-157 | the x and y rotation matrices act on (v, 1) like vec3_rotate_x and vec3_rotate_y |
| Camera.CameraState.Init | src/camera.c:5-12 | position and direction as given; both velocities, the pitch and the yaw start at zero |
| Camera.CameraState.GetPosition | src/camera.c:14-16 | returns the stored position and changes nothing |
| Camera.CameraState.GetDirection | src/camera.c:18-20 | returns the stored direction and changes nothing |
| Camera.CameraState.GetForwardVelocity | src/camera.c:22-24 | returns the stored forward velocity and changes nothing |
| Camera.CameraState.GetSidewaysVelocity | src/camera.c:26-28 | returns the stored sideways velocity and changes nothing |
| Camera.CameraState.GetYaw | src/camera.c:30-32 | returns the stored yaw and changes nothing |
| Camera.CameraState.GetPitch | src/camera.c:34-36 | returns the stored pitch and changes nothing |
| Camera.CameraState.UpdatePosition | src/camera.c:38-40 | replaces the position; the frame says no other field changes |
| Camera.CameraState.UpdateDirection | src/camera.c:42-44 | replaces the direction and nothing else |
| Camera.CameraState.UpdateForwardVelocity | src/camera.c:46-48 | replaces the forward velocity and nothing else |
| Camera.CameraState.UpdateSidewaysVelocity | src/camera.c:50-52 | replaces the sideways velocity and nothing else |
| Camera.CameraState.UpdateYaw | src/camera.c:54-56 | adds the argument to the yaw (it accumulates rather than replacing) |
| Camera.CameraState.UpdatePitch | src/camera.c:58-60 | adds the argument to the pitch |
| Camera.CameraState.GetLookAtTarget | src/camera.c:62-81 | stores the forward vector turned by pitch and then yaw as the new direction; the target is position + direction; only the direction changes |
| Camera.LookDirectionStandard | src/camera.c:62-81 | with Matrix.RotationX and Matrix.RotationY as the rotation constructors, the look direction is (-sin yaw cos pitch, -sin pitch, cos yaw cos pitch); those two matrices are this model's choice, made to agree with vec3_rotate_x and vec3_rotate_y, because the matrix constructors are not part of this model |
| Camera.LookDirectionUnit | src/camera.c:62-81 | the look direction has unit length for true sines and cosines |
| Display.Round | src/display.c:161 | the rounded value is within 1/2 of its argument, with halfway cases going away from zero |
| Display.Abs | src/triangle.c:112-113 | the result is non-negative and equals n or -n |
| Display.IndexInRange | src/display.c:125-131 | the row-major index of an in-range (x, y) lies inside the width * height buffer |
| Display.IndexInjective | src/display.c:125-131 | two in-range pixels with the same buffer index are the same pixel |
| Display.Frame.ZAt | src/display.c:215-221 | out of range the depth is 1.0 (farthest); in range it is the stored cell |
| Display.Frame.Plot | src/display.c:125-131 | out of range nothing changes; in range exactly the pixel's own colour cell changes; depth is untouched |
| Display.Frame.SetZ | src/display.c:223-229 | out of range nothing changes; in range exactly the pixel's own depth cell changes; colour is untouched |
| Display.Frame.ClearColor | src/display.c:203-207 | every colour cell holds the colour; depth is untouched |
| Display.Frame.ClearDepth | src/display.c:209-213 | every depth cell holds 1.0; colour is untouched |
| Display.ClearedDepthIsFar | src/display.c:209-221 | after clearing the depth buffer every pixel, in or out of range, reads as 1.0 |
| Display.DepthReadBack | src/display.c:215-229 | a depth written at (x, y) reads back at (x, y) when in range, and every other pixel reads as before |
| Display.PlotAllCell | src/display.c:125-131 | after drawing a list of pixels in one colour, a cell holds that colour exactly when some in-range pixel of the list maps to it, and keeps its old colour otherwise |
| Display.PlotAllAppend | src/display.c:125-131 | drawing two lists one after the other is drawing their concatenation |
| Display.Span | src/display.c:135-146 | an inclusive run has hi - lo + 1 pixels, or none when lo > hi |
| Display.SpanMembers | src/display.c:135-146 | a run holds exactly the pixels of its row between its two ends, inclusive |
| Display.RectPixelsShape | src/display.c:177-183 | draw_rect visits (width + 1) * (height + 1) pixels: exactly those between (x, y) and (x + width, y + height), both ends inclusive |
| Display.RectRowsCount | src/display.c:178-182 | the rows of a rectangle hold (columns) * (rows) pixels |
| Display.GridPixelsShape | src/display.c:169-175 | draw_grid writes exactly the in-range pixels whose x and y are both multiples of 10 |
| Display.HorizontalLineMembers | src/display.c:135-148 | a horizontal line covers exactly its row from the smaller x to the larger, in either direction |
| Display.SideLength | src/display.c:154 | the step count is at least |dx| and at least |dy|, and equals one of them |
| Display.LineEnds | src/display.c:133-167 | a line passes through both endpoints; off the horizontal case it has side + 1 pixels, the first being the start and the last the end |
| Display.LineConnected | src/display.c:133-167 | consecutive pixels of a line differ by at most 1 in x and at most 1 in y, so the line has no gaps |
| Display.StepBound | src/display.c:161-164 | with an increment in [-1, 1], one step moves the rounded position by at most 1 |
| Display.RoundStep | src/display.c:161 | reals less than 1 apart round to integers at most 1 apart |
| Display.Screen.constructor | src/display.c:10-64 | allocates two fresh width * height buffers; both switches start at 0 |
| Display.Screen.GetWindowWidth | src/display.c:78-80 | returns the width; width * height is the buffer length |
| Display.Screen.GetWindowHeight | src/display.c:82-84 | returns the height; width * height is the buffer length |
| Display.Screen.SetRenderMethod | src/display.c:86-88 | replaces the render method and nothing else |
| Display.Screen.SetCullMethod | src/display.c:90-92 | replaces the cull method and nothing else |
| Display.RenderMethodTable | src/display.c:94-123 | filled and textured are never both on; vertices implies wireframe; some shape is drawn exactly for the six known codes; back-face culling is on exactly for its code |
| Display.Screen.DrawPixel | src/display.c:125-131 | the buffers become Frame.Plot of the old buffers: a bounds-guarded write of one colour cell |
| Display.Screen.GetZBufferAt | src/display.c:215-221 | returns Frame.ZAt of the current buffers and changes nothing |
| Display.Screen.UpdateZBufferAt | src/display.c:223-229 | the buffers become Frame.SetZ of the old buffers |
| Display.Screen.ClearColorBuffer | src/display.c:203-207 | the buffers become Frame.ClearColor of the old buffers |
| Display.Screen.ClearZBuffer | src/display.c:209-213 | the buffers become Frame.ClearDepth of the old buffers |
| Display.Screen.DrawLine | src/display.c:133-167 | the buffers become the old ones with LinePixels drawn in order, whose ends and connectedness are proved above |
| Display.Screen.DrawSteps | src/display.c:156-166 | the DDA loop draws StepsFrom: side + 1 pixels rounded from the accumulated position |
| Display.Screen.DrawRun | src/display.c:136-145 | a loop over x draws the inclusive run Span |
| Display.Screen.DrawRect | src/display.c:177-183 | the buffers become the old ones with RectPixels drawn, row by row |
| Display.Screen.DrawGrid | src/display.c:169-175 | the buffers become the old ones with the grid pixels drawn in the grid colour |
| Display.Screen.DrawGridRow | src/display.c:171-173 | one row of the grid: every tenth pixel of the row |
| Raster.Trunc | src/triangle.c:112-113 | truncation toward zero: the result is the integer part of r, rounded toward zero |
| Raster.TruncOfInteger | src/triangle.c:112-113 | truncating an integer gives it back |
| Raster.BarycentricWeights | src/triangle.c:25-46 | the three weights sum to 1 |
| Raster.BarycentricAtVertices | src/triangle.c:25-46 | at each corner the weights are the unit triple of that corner |
| Raster.BarycentricReconstructs | src/triangle.c:25-46 | the weights reproduce the point: alpha a + beta b + gamma c = p |
| Raster.CornerValues | src/triangle.c:88-105 | at a corner, interpolated 1/w is that corner's 1/w and the interpolated texture coordinate is that corner's own |
| Raster.TexelIndex | src/triangle.c:108-113 | the wrapped texel index always lies inside the texture's pixels |
| Raster.DepthTestWrite | src/triangle.c:116-127 | the depth test keeps the frame valid and the same size |
| Raster.DepthTestCell | src/triangle.c:62-71 | a cell takes the new colour and depth exactly when it is the pixel's in-range cell and the new depth is strictly smaller; all other cells keep colour and depth |
| Raster.NearerWins | src/triangle.c:62-71 | two writes to one pixel at different depths give the same frame in either order, the nearer one winning |
| Raster.Paint | src/triangle.c:204-217 | painting a list of pixels keeps the frame valid and the same size |
| Raster.PaintAppend | src/triangle.c:204-239 | painting two lists one after the other is painting their concatenation |
| Raster.PaintCell | src/triangle.c:204-239 | painting never makes a depth cell farther; a cell that no in-range pixel of the list maps to keeps colour and depth |
| Raster.SortByY | src/triangle.c:159-182 | the sorted vertices have non-decreasing y and are a permutation of the input |
| Raster.OrderPair | src/triangle.c:159-166 | one compare-and-swap orders a pair by y and keeps both vertices |
| Raster.SortVertices | src/triangle.c:159-182 | the three compare-and-swaps compute SortByY |
| Raster.RowSpanMembers | src/triangle.c:206-215 | each scanline has at least one pixel: exactly those of its row between the two truncated edge crossings, in either order |
| Raster.HalfRowsMembers | src/triangle.c:204-217 | a half-loop visits exactly the pixels of its rows' spans |
| Raster.HalfRowsLast | src/triangle.c:204-217 | the rows y..yEnd are the rows y..yEnd-1 followed by row yEnd |
| Raster.SharedMiddleRow | src/triangle.c:204-239 | when y0 < y1 < y2 both halves give row y1 the same span, and the visited pixels are the upper rows, that span twice, then the lower rows |
| Raster.SameCrossings | src/triangle.c:206-215 | two scans with the same anchor, long edge and first crossing at a row give that row the same span |
| Raster.StartsAtAnchor | src/triangle.c:201-224 | each half's start edge passes through its anchor vertex |
| Raster.ScanVisitsRows | src/triangle.c:204-239 | a triangle's pixels lie between the top and bottom y; every row in between is visited; a triangle with no height draws nothing |
| Raster.RightTriangleScenario | src/triangle.c:242-329 | the right triangle (0,0), (10,0), (0,10) covers exactly the 66 pixels with x, y >= 0 and x + y <= 10 |
| Raster.RightTriangleMembers | src/triangle.c:293-306 | the upper half of the right triangle of size n covers exactly x, y >= 0, x + y <= n |
| Raster.RightTriangleRow | src/triangle.c:295-304 | row y of the right triangle of size n is the run 0 .. n - y |
| Raster.RightTriangleRows | src/triangle.c:293-306 | rows y .. n of the right triangle hold Triangular(n + 1 - y) pixels |
| Raster.TriangularClosed | src/triangle.c:293-306 | 2 * Triangular(n) = n (n + 1) |
| Raster.OutlineCorners | src/triangle.c:19-23 | the wireframe outline passes through all three corners |
| Raster.DrawTriangle | src/triangle.c:19-23 | the buffers become the old ones with the three edge lines drawn in order, in one colour |
| Raster.DrawTrianglePixel | src/triangle.c:48-72 | the buffers become ShadePixel with the solid colour: the depth test at 1 - interpolated 1/w |
| Raster.DrawTexel | src/triangle.c:74-128 | the buffers become ShadePixel with the texture colour at the perspective-correct coordinate |
| Raster.DrawShaded | src/triangle.c:48-128 | dispatches to the solid or textured pixel routine; the buffers become ShadePixel |
| Raster.PaintRow | src/triangle.c:204-217 | painting rows y .. yEnd is painting rows y .. yEnd-1 and then the row yEnd |
| Raster.DrawSpan | src/triangle.c:210-214 | the inner x loop paints the inclusive run from x_start to x_end |
| Raster.DrawScanline | src/triangle.c:206-215 | a scanline swaps the crossings if needed and paints RowSpan |
| Raster.DrawRows | src/triangle.c:204-217 | the y loop paints every row of a half |
| Raster.DrawUpperHalf | src/triangle.c:200-218 | the upper half, skipped when it has no height, paints UpperRows |
| Raster.DrawLowerHalf | src/triangle.c:221-239 | the lower half, skipped when it has no height, paints LowerRows |
| Raster.DrawHalves | src/triangle.c:200-239 | both halves together paint ScanVisits |
| Raster.DrawFilledTriangle | src/triangle.c:242-329 | the buffers become DrawnFrame: the sorted triangle's pixels painted with the solid colour under the depth test |
| Raster.DrawTexturedTriangle | src/triangle.c:130-240 | the buffers become DrawnFrame: the sorted, v-flipped triangle's pixels painted with texels under the depth test |
| Clipping.FrustumPlanes | src/clipping.c:8-43 | six planes whose signed distances are cos·x + sin·z (left), -cos·x + sin·z (right), -cos·y + sin·z (top), cos·y + sin·z (bottom), z - zNear (near) and zFar - z (far) |
| Clipping.FloatLerp | src/clipping.c:75-77 | a at t = 0, b at t = 1, and between a and b for t in [0, 1] |
| Clipping.LerpBetween | src/clipping.c:75-77 | for t in [0, 1], t d lies between 0 and d |
| Clipping.CrossingParam | src/clipping.c:106-108 | when the signed distances have strictly opposite signs, t lies strictly between 0 and 1 and the lerped distance there is 0 |
| Clipping.TriangleLoop | src/clipping.c:45-53 | three vertices with the given positions and texture coordinates, in order |
| Clipping.FanTriangle | src/clipping.c:55-73 | triangle i has corners 0, i + 1 and i + 2 of the polygon, promoted with w = 1, with their texture coordinates; colour and texture are kept |
| Clipping.FanIndices | src/clipping.c:56 | an n-gon gives n - 2 fan triangles |
| Clipping.FanTriangleCorners | src/clipping.c:55-73 | each fan triangle's corners and texture coordinates are the polygon vertices its fan entry names |
| Clipping.FanCoversBoundary | src/clipping.c:55-73 | every boundary edge of an n-gon (n >= 3) is an edge of some fan triangle |
| Clipping.Polygon.FromTriangle | src/clipping.c:45-53 | a polygon with three vertices: the triangle's corners and texture coordinates |
| Clipping.Polygon.ClipAgainstPlane | src/clipping.c:79-149 | the polygon becomes Clip of its old contents against the plane |
| Clipping.Polygon.Sweep | src/clipping.c:94-141 | the sweep over the closed loop fills a fresh buffer with exactly Clip of the contents |
| Clipping.Polygon.ClipPolygon | src/clipping.c:151-158 | the polygon becomes ClipAll of its old contents against the six planes in order |
| Clipping.Polygon.TrianglesFromPolygon | src/clipping.c:55-73 | writes n - 2 fan triangles into the array's first slots, leaves every later slot alone, and reports n - 2 |
| Clipping.ClipPrefixGrows | src/clipping.c:101-141 | the sweep only appends: an earlier prefix of its output is a prefix of a later one |
| Clipping.ClipCount | src/clipping.c:101-141 | the output has one vertex per inside vertex plus one per crossing edge, so at most twice the input |
| Clipping.CrossingOnPlane | src/clipping.c:106-127 | an inserted crossing point lies exactly on the plane |
| Clipping.SignedDistanceAlongEdge | src/clipping.c:108-115 | the signed distance of a lerped point is the lerp of the ends' signed distances |
| Clipping.CrossingTexBetween | src/clipping.c:117-121 | the crossing point's u and v lie between those of the edge's ends |
| Clipping.ClipOutputInside | src/clipping.c:101-141 | every output vertex is an input vertex strictly inside or a crossing point on the plane, so none is outside |
| Clipping.ClipAllInside | src/clipping.c:79-149 | a polygon strictly inside the plane comes back unchanged |
| Clipping.ClipAllOutside | src/clipping.c:79-149 | a polygon with no vertex strictly inside comes back empty |
| Clipping.OneCornerOut | src/clipping.c:101-141 | a triangle with one corner outside becomes a quadrilateral: two crossing points, then the two inside corners |
| Clipping.OneCornerIn | src/clipping.c:101-141 | a triangle with one corner inside stays a triangle: a crossing, the inside corner, a crossing |
| Clipping.TriangleClipSize | src/clipping.c:101-141 | a clipped triangle has one vertex per strictly inside corner plus one per crossing edge |
| Clipping.OneOutsideMakesFour | src/clipping.c:101-141 | a triangle with exactly one corner strictly outside, in any of the three positions, and two strictly inside becomes four vertices |
| Clipping.OneInsideMakesThree | src/clipping.c:101-141 | a triangle with exactly one corner strictly inside, in any position, and two strictly outside stays three vertices |
| Clipping.TriangleCrossings | src/clipping.c:101-141 | at most two edges of a triangle cross any plane |
| Clipping.CrossingHasOutside | src/clipping.c:106 | an edge that crosses the plane has an end strictly outside it |
| Clipping.ClipGrowsByOne | src/clipping.c:79-149 | a polygon crossing the plane along at most two edges gains at most one vertex |
| Clipping.FitsWhenFewCrossings | src/clipping.c:151-158 | a polygon crossing each plane at most twice never holds more than its size plus the number of planes applied so far, so a triangle needs 9 slots for the six planes |
| Clipping.TriangleFirstPlane | src/clipping.c:79-149 | the first clip of a triangle never yields more than four vertices |
| Clipping.OneCornerOnPlane | src/clipping.c:106-133 | a corner exactly on the plane is dropped: with the other two strictly inside, two vertices remain and the fan makes no triangle |
| Clipping.ClipKeepsHalfspace | src/clipping.c:101-141 | clipping against one plane keeps every half-space the polygon already lay in |
| Clipping.CrossingKeepsHalfspace | src/clipping.c:106-127 | a crossing between two points inside or on a plane q is inside or on q |
| Clipping.ClipAllInsideAll | src/clipping.c:151-158 | after clipping against all planes, every vertex is inside or on each of them (and on any plane the input already satisfied) |
| Clipping.FitsWhenSmall | src/clipping.c:151-158 | an input of n vertices with n * 2^planes <= capacity never overflows the capacity during clipping |

## Left out

- Window, renderer and texture presentation through SDL (window creation, render_color_buffer, destroy_window), PNG decoding and the mesh loader: these are I/O. The window size is a constructor argument, not the display mode.
- `cos`, `sin`, `sqrt` and `pow` are not modelled. The rotations and the frustum planes take sines and cosines as arguments, and the vector lengths and normalisation (vec2_length, vec3_length, vec2_normalize, vec3_normalize) are left out.
- get_triangle_normal is left out: it needs normalisation.
- vec2_new and vec3_new are the datatype constructors.
- The matrix module of the renderer is not part of this model. `Matrix` defines only the products the camera uses, and the camera takes the rotation-matrix constructors as parameters.
- The display and clipping headers are not part of this model. The render-method codes 0..5, the cull codes 0/1 and the plane indices left, right, top, bottom, near, far = 0..5 are assumed, in declaration order.
- Rounding of single-precision arithmetic is not modelled: reals are exact. In particular the line walk's accumulated position is exact, so a float build may round differently from the model on long lines.
- Divisions the source does unguarded are preconditions over the reals: a zero factor in vec2_div/vec3_div, a zero triangle area in barycentric_weights, a zero w. The C result there would be an infinity or NaN.
- Raster.InterpolatedUv: where interpolated 1/w is exactly zero, the source divides by zero and converts the infinity to int, which C leaves undefined; the model picks texture coordinate (0, 0) there.
- Clipping.Polygon: the polygon's vertices and texture coordinates are one array of pairs rather than two parallel arrays, and the frustum-plane table is passed as a sequence rather than read from a global. Clipping.FrustumPlanes is a function, not a write to that table.
- Clipping.Polygon.ClipAgainstPlane and Clipping.Polygon.ClipPolygon require that every intermediate polygon fits the capacity: the source writes past its fixed arrays without a check otherwise. Clipping.FitsWhenSmall gives a sufficient condition.
- Clipping.Polygon.ClipAgainstPlane on an empty polygon: the source reads the vertex before index 0; the model yields the empty polygon without that read.
- The scan loops are split into one method per loop (Display.Screen.DrawRun, DrawSteps, DrawGridRow; Raster.DrawSpan, DrawScanline, DrawRows, DrawUpperHalf, DrawLowerHalf; Clipping.Polygon.Sweep). Each is specified separately, and the composition is proved.
- Raster.SortVertices states its result through Raster.SortByY. Its sortedness and permutation properties are proved on SortByY.
- Raster.RightTriangleScenario: only this one triangle is checked pixel by pixel; for it, the inclusive scan spans visit the 66 positions with x, y >= 0 and x + y <= 10.
- Raster.Trunc and Display.Abs: the C `int` width is not modelled. A float-to-int conversion whose value is out of the int range is undefined in C, and so is abs(INT_MIN); both functions are total on unbounded integers instead. This concerns the texel lookup, the vertex truncation, the scanline crossings and the rounded line positions.
- Clipping.FitsWhenSmall: the bound of one extra vertex per plane, 3 + 6 = 9 for a triangle, is proved only under the hypothesis of Clipping.FitsWhenFewCrossings that each intermediate polygon crosses its plane along at most two edges. Convex polygons satisfy that hypothesis, and clipping keeps a polygon convex, but convexity is not modelled. Without the hypothesis the model proves only the doubling bound.
