# 4site templates: animation and live-data core in Dafny

This project models the JavaScript that drives the templates' moving parts and proves properties of that model:

- **Quantum interface** (`particles.js`):
  - a 1000-particle field. Each frame moves every particle, bounces it off a 100×100×50 box, pulses its size and draws up to 100 connection lines between pairs closer than 10.
  - the mouse pushes nearby particles away.
  - a 24-node network graph. Each node makes one to three random link attempts, and an attempt that targets the node itself is dropped, so a node gets zero to three links. A damped random walk moves the nodes, and a velocity component is reversed while its coordinate lies outside [20,380]×[20,280]; positions are not clamped.
- **Dimensional dashboard** (`realtime-updates.js`, `d3-charts.js`):
  - a real-time stream that keeps its last 50 points.
  - statistics derived from each new point.
  - an activity feed trimmed to ten entries.
  - the simulated WebSocket messages.
  - the random walks, heatmap and scatter data behind the charts, and their label rules.
- **Liquid-metal commerce** (`three-setup.js`): five spheres that drift and bounce inside a box around a rotating mesh.
- **Motion design system** (`gsap-library.js`):
  - how `staggerAnimation`, `scrollAnimation` and `parallax` assemble GSAP's tween variables.
  - which elements the page-load initialisation animates.
  - the text scramble effect.

Modelling conventions:

- Every `Math.random()` draw is an element of an input sequence of reals in [0, 1), consumed in the order the source draws them.
- `Math.sin`, `Math.cos`, `distanceTo` and `normalize` are function parameters.
- `Date.now()` and the day of the month are integer parameters. Each `Date.now()` read is its own parameter.
- Objects the source updates in place become classes: the particle system, the network, the dashboard, the scene and the scrambler.
- Pure computations become functions. The source's loops become methods proved against those functions.
- Numbers are Dafny reals, and `Math.floor` is `.Floor`.
- `Number.prototype.toString`, `toLocaleString` (en-US digit grouping) and `parseInt` on decimal strings are modelled in `text.dfy`.

## Model

| member | source | states |
|---|---|---|
| QuantumParticles.Tint | assets/quantum-interface/js/particles.js:66-70 | a draw gives a colour from cyan toward purple: red in [0,1), green in (0.5,1], blue 1 |
| QuantumParticles.InitialParticle | assets/quantum-interface/js/particles.js:58-86 | a particle made from nine draws starts in the box [-50,50)×[-50,50)×[-25,25), with velocity components in [-0.05,0.05), size in [1,4) and phase in [0,2π) |
| QuantumParticles.InitialParticleRanges | assets/quantum-interface/js/particles.js:58-86 | with `Math.random` draws every particle starts in that range |
| QuantumParticles.InitialParticles | assets/quantum-interface/js/particles.js:58-86 | the particle array holds, at index i, the particle built from the i-th group of nine draws |
| QuantumParticles.HiddenPool | assets/quantum-interface/js/particles.js:144-153 | the connection pool has 100 lines, all hidden |
| QuantumParticles.FillBuffers | assets/quantum-interface/js/particles.js:58-74 | the position, colour and size buffers hold each particle's position, its cyan-to-purple tint and its size at offsets 3i and i |
| QuantumParticles.ParticleSystem.constructor | assets/quantum-interface/js/particles.js:52-153 | a new system has 1000 particles built from the draws, buffers matching them, 100 hidden lines at opacity 0.2 and the mouse at the origin |
| QuantumParticles.Moved | assets/quantum-interface/js/particles.js:167-179 | a particle moves by its velocity, and each velocity component is negated exactly when the moved coordinate is beyond 50, 50 or 25. The x and y fluctuations are added afterwards. Speeds, size and phase are unchanged |
| QuantumParticles.PulsedSize | assets/quantum-interface/js/particles.js:187 | the written size stays within 20 percent of the original size |
| QuantumParticles.RowLinks | assets/quantum-interface/js/particles.js:190-209 | row i yields at most one link per later particle |
| QuantumParticles.LinksBefore | assets/quantum-interface/js/particles.js:162-210 | i scanned rows yield at most i·n links |
| QuantumParticles.FrameLinks | assets/quantum-interface/js/particles.js:162-210 | a frame yields at most n² links |
| QuantumParticles.LinkOpacity | assets/quantum-interface/js/particles.js:205 | a link shorter than 10 gets an opacity in (0, 0.3] |
| QuantumParticles.OpacityDecreasing | assets/quantum-interface/js/particles.js:205 | a longer link is drawn more faintly |
| QuantumParticles.RowLinksSound | assets/quantum-interface/js/particles.js:190-209 | the links found for particle i pair i with later particles closer than 10, in increasing j |
| QuantumParticles.RowLinksShape | assets/quantum-interface/js/particles.js:190-209 | each link of row i runs from particle i to a later particle j at its position, records their distance, is shorter than 10, and the j values increase |
| QuantumParticles.LinksBeforeSound | assets/quantum-interface/js/particles.js:162-210 | the links found in rows before i are true close pairs, in scan order |
| QuantumParticles.FrameLinksSound | assets/quantum-interface/js/particles.js:162-210 | every link of a frame joins a moved particle i with a not-yet-moved particle j > i closer than 10, and the links come in (i, j) order |
| QuantumParticles.RowLinksComplete | assets/quantum-interface/js/particles.js:190-193 | every later particle within 10 of particle i is found in row i |
| QuantumParticles.LinksBeforeComplete | assets/quantum-interface/js/particles.js:162-193 | every close pair in a scanned row is among the links found |
| QuantumParticles.FrameLinksComplete | assets/quantum-interface/js/particles.js:162-193 | every close pair (i, j) of a frame is found: no close pair is missed |
| QuantumParticles.ParticleSystem.MoveParticle | assets/quantum-interface/js/particles.js:163-187 | particle i becomes its moved self, and its position and pulsed size are written to the buffers. No other particle or buffer slot changes |
| QuantumParticles.ParticleSystem.ScanRow | assets/quantum-interface/js/particles.js:190-209 | the row's links claim the next free slots of the pool, in order, until the pool is full. The shared opacity is that of the last claim |
| QuantumParticles.ParticleSystem.ClaimSlot | assets/quantum-interface/js/particles.js:193-208 | a link shorter than 10 takes the next free slot while one is left and sets the shared opacity. Otherwise nothing changes |
| QuantumParticles.ParticleSystem.FinishFrame | assets/quantum-interface/js/particles.js:212-219 | once every row is moved and scanned: particles, buffers, claim count and opacity are those of the whole frame, and slot k shows the frame's k-th close pair or is hidden |
| QuantumParticles.ParticleSystem.HideUnclaimed | assets/quantum-interface/js/particles.js:214-216 | slots past the claimed ones are hidden and claimed slots keep their link |
| QuantumParticles.ParticleSystem.FrameRow | assets/quantum-interface/js/particles.js:162-211 | one outer iteration keeps the frame invariant: rows before i+1 are moved, written and scanned |
| QuantumParticles.ParticleSystem.UpdateParticles | assets/quantum-interface/js/particles.js:156-220 | after a frame:<br>- every particle is moved;<br>- the buffers hold the new positions and pulsed sizes;<br>- slot k shows the frame's k-th close pair if there is one and is hidden otherwise;<br>- min(links, 100) slots are claimed;<br>- the opacity is the last claimed link's |
| QuantumParticles.MouseWorld | assets/quantum-interface/js/particles.js:235-236 | a mouse inside the window maps to a point of the z = 0 plane within 50 of the origin on each axis |
| QuantumParticles.Impulse | assets/quantum-interface/js/particles.js:239-241 | a particle within 20 of the mouse receives a push of length in (0, 0.1] |
| QuantumParticles.Nudged | assets/quantum-interface/js/particles.js:238-244 | a particle at least 20 away is unchanged. A nearer one has the push away from the mouse added to its velocity, and its position is unchanged |
| QuantumParticles.ParticleSystem.OnMouseMove | assets/quantum-interface/js/particles.js:228-245 | the mouse is mapped to [-1,1] device coordinates with y flipped, and every particle is nudged away from the mouse's world point (50x, 50y, 0) |
| NetworkGraph.Attempts | assets/quantum-interface/js/particles.js:307 | each node makes one to three link attempts |
| NetworkGraph.AttemptsIsFloor | assets/quantum-interface/js/particles.js:307 | the attempt count is `Math.floor(r * 3) + 1` for a draw r in [0, 1) |
| NetworkGraph.NodeLinks | assets/quantum-interface/js/particles.js:307-311 | one node's turn uses two to four draws and adds at most three links |
| NetworkGraph.AttemptLinks | assets/quantum-interface/js/particles.js:308-311 | k attempts yield at most k links |
| NetworkGraph.NodeTurn | assets/quantum-interface/js/particles.js:307-311 | one pass of the outer loop's body gives exactly the node's turn: its links and the draws it uses |
| NetworkGraph.Target | assets/quantum-interface/js/particles.js:309 | a drawn target is a node index in [0, 24) |
| NetworkGraph.LinkScan | assets/quantum-interface/js/particles.js:306-324 | after i nodes, between 2i and 4i draws are used and at most 3i links exist |
| NetworkGraph.AttemptLinksProper | assets/quantum-interface/js/particles.js:308-311 | a node's attempts yield at most that many links, all from that node to another node |
| NetworkGraph.LinkScanProper | assets/quantum-interface/js/particles.js:306-324 | no link is a self-loop, and every link joins two valid nodes |
| NetworkGraph.AtMostThreeEach | assets/quantum-interface/js/particles.js:306-324 | every node is the source of at most three links |
| NetworkGraph.AttemptRow | assets/quantum-interface/js/particles.js:308-311 | the inner loop yields exactly the node's attempt links |
| NetworkGraph.CreateLinks | assets/quantum-interface/js/particles.js:306-324 | the link-creation loop produces exactly the specified links and uses exactly the specified number of draws |
| NetworkGraph.NodeStep | assets/quantum-interface/js/particles.js:348-361 | the velocity gets jitter and then 0.95 damping, and the node moves by it. A component is negated exactly when the new coordinate leaves [20,380]×[20,280] |
| NetworkGraph.SpeedBound | assets/quantum-interface/js/particles.js:348-353 | velocity components stay within 0.95 forever |
| NetworkGraph.Network.constructor | assets/quantum-interface/js/particles.js:285-324 | nodes start at rest at their placed positions, and the links are the specified ones |
| NetworkGraph.Network.AnimateNetwork | assets/quantum-interface/js/particles.js:346-362 | every node takes one step with its own two draws |
| RealtimeUpdates.InitialPoint | assets/dimensional-dashboard/js/realtime-updates.js:145-148 | a point made from a draw has a value in [25,75), and one of the first 50 is stamped at least one second before its clock read |
| RealtimeUpdates.InitialFill | assets/dimensional-dashboard/js/realtime-updates.js:144-149 | the stream starts with 50 points, each stamped at least one second before its own clock read |
| RealtimeUpdates.InitialFillShape | assets/dimensional-dashboard/js/realtime-updates.js:144-149 | initial values lie in [25,75). Consecutive timestamps differ by 1000 plus the time between the two clock reads, so with a clock that does not run backwards they are at least one second apart. The last is one second before the last read |
| RealtimeUpdates.NextValue | assets/dimensional-dashboard/js/realtime-updates.js:154-156 | a new value is always within [0,100] |
| RealtimeUpdates.NextValueStep | assets/dimensional-dashboard/js/realtime-updates.js:155-156 | a new value differs from the previous one by at most 5 |
| RealtimeUpdates.Slide | assets/dimensional-dashboard/js/realtime-updates.js:158-166 | the new point is last, the window grows to at most 50, and the rest is the old window's suffix |
| RealtimeUpdates.SlideKeepsWindow | assets/dimensional-dashboard/js/realtime-updates.js:158-166 | a full window drops its oldest point |
| RealtimeUpdates.SlideNeverShrinks | assets/dimensional-dashboard/js/realtime-updates.js:164-166 | a buffer longer than 50 keeps its length: one shift per push never trims it back |
| RealtimeUpdates.UsersFor | assets/dimensional-dashboard/js/realtime-updates.js:202 | the user count is in [0,1050) |
| RealtimeUpdates.RequestsFor | assets/dimensional-dashboard/js/realtime-updates.js:206 | requests per second are in [0,15) |
| RealtimeUpdates.ResponseFor | assets/dimensional-dashboard/js/realtime-updates.js:210 | the average response is in [50,150) ms |
| RealtimeUpdates.Dashboard.constructor | assets/dimensional-dashboard/js/realtime-updates.js:6 | an empty stream and feed, with the given user count shown |
| RealtimeUpdates.Dashboard.StartStream | assets/dimensional-dashboard/js/realtime-updates.js:144-149 | the initial points are appended to the stream |
| RealtimeUpdates.Dashboard.UpdateStats | assets/dimensional-dashboard/js/realtime-updates.js:200-212 | the three statistics are shown as locale strings and "ms" |
| RealtimeUpdates.Dashboard.Tick | assets/dimensional-dashboard/js/realtime-updates.js:152-173 | on a non-empty stream the next value is slid in and the stats updated. An empty stream fails and changes nothing |
| RealtimeUpdates.JoinedIncrements | assets/dimensional-dashboard/js/realtime-updates.js:303-308 | a shown count n becomes n+1 when a user joins |
| RealtimeUpdates.JoinedCount | assets/dimensional-dashboard/js/realtime-updates.js:304-307 | a shown text with no number gives "NaN"; otherwise reading the new text back gives the shown number plus one |
| RealtimeUpdates.CpuWarning | assets/dimensional-dashboard/js/realtime-updates.js:319-327 | a warning is raised exactly when cpu > 80, with the floored percentage in its message |
| RealtimeUpdates.Dashboard.HandleMessage | assets/dimensional-dashboard/js/realtime-updates.js:299-329 | user_joined increments the count, purchase_completed flashes the revenue green, and a server_status above 80% adds a warning under the next feed id. Nothing else changes |
| RealtimeUpdates.Dashboard.ResetRevenueColor | assets/dimensional-dashboard/js/realtime-updates.js:313-315 | the revenue colour is cleared |
| RealtimeUpdates.Without | assets/dimensional-dashboard/js/realtime-updates.js:277 | removing an id never lengthens the feed, and removing an absent id changes nothing |
| RealtimeUpdates.WithoutMembers | assets/dimensional-dashboard/js/realtime-updates.js:277 | an item survives the removal exactly when it was in the feed and does not carry the removed id |
| RealtimeUpdates.WithoutLength | assets/dimensional-dashboard/js/realtime-updates.js:277 | removing a present item with distinct ids shortens the feed by one |
| RealtimeUpdates.WithoutDistinct | assets/dimensional-dashboard/js/realtime-updates.js:277 | removal keeps ids distinct and adds no item |
| RealtimeUpdates.FilterOut | assets/dimensional-dashboard/js/realtime-updates.js:277 | the removal loop computes exactly the items without the id |
| RealtimeUpdates.Dashboard.AddActivityItem | assets/dimensional-dashboard/js/realtime-updates.js:244-279 | the item goes on top. A feed longer than ten schedules its last item for removal |
| RealtimeUpdates.Added | assets/dimensional-dashboard/js/realtime-updates.js:261-278 | the new item is on top of the unchanged feed, and the bottom item is scheduled for removal exactly when the feed held ten or more |
| RealtimeUpdates.Removed | assets/dimensional-dashboard/js/realtime-updates.js:277 | the removed id is unscheduled and no item with it remains; every other item stays |
| RealtimeUpdates.Dashboard.RemoveItem | assets/dimensional-dashboard/js/realtime-updates.js:277 | the removal timer deletes the item and unschedules it |
| RealtimeUpdates.SteadyFeed | assets/dimensional-dashboard/js/realtime-updates.js:262-278 | with removals between arrivals, a ten-item feed stays at ten: the new item is on top and the oldest is gone |
| RealtimeUpdates.WithoutKeeps | assets/dimensional-dashboard/js/realtime-updates.js:277 | removing the last item's id from a feed that holds it only there leaves the rest |
| RealtimeUpdates.BurstLeavesEleven | assets/dimensional-dashboard/js/realtime-updates.js:270-278 | two arrivals inside one removal delay both schedule the same last item, so eleven items remain |
| ChartData.Step | assets/dimensional-dashboard/js/d3-charts.js:527-528 | a step stays in the band, and is the unclamped step whenever that lies inside |
| ChartData.Values | assets/dimensional-dashboard/js/d3-charts.js:522-533 | a clamped walk has one value per draw, all within its bounds |
| ChartData.StepMoves | assets/dimensional-dashboard/js/d3-charts.js:527-528 | a clamped step stays within half the walk's amplitude of the previous value |
| ChartData.StepBound | assets/dimensional-dashboard/js/d3-charts.js:527-528 | each step moves the sparkline by at most 5 and the revenue by at most 2500 |
| ChartData.GenerateSparklineData | assets/dimensional-dashboard/js/d3-charts.js:522-533 | the loop computes exactly the sparkline walk |
| ChartData.SparklineRange | assets/dimensional-dashboard/js/d3-charts.js:522-533 | sparkline values lie in [10,90] |
| ChartData.TimeSeries | assets/dimensional-dashboard/js/d3-charts.js:535-551 | a series over d days has d+1 points |
| ChartData.GenerateTimeSeriesData | assets/dimensional-dashboard/js/d3-charts.js:535-551 | the count-down loop computes exactly the specified series |
| ChartData.TimeSeriesShape | assets/dimensional-dashboard/js/d3-charts.js:535-551 | values lie in [30000,80000], days are consecutive, and the last is today |
| ChartData.HeatCell | assets/dimensional-dashboard/js/d3-charts.js:380-386 | a cell carries its day's name and its hour, with a value in [0,100) for a draw |
| ChartData.HeatmapData | assets/dimensional-dashboard/js/d3-charts.js:376-388 | 7×24 cells in day-major order, each with its day, hour and draw |
| ChartData.HeatmapCovers | assets/dimensional-dashboard/js/d3-charts.js:376-388 | each (day, hour) pair occurs in exactly one cell |
| ChartData.DayNamesDistinct | assets/dimensional-dashboard/js/d3-charts.js:376 | the seven day names are distinct |
| ChartData.ScatterData | assets/dimensional-dashboard/js/d3-charts.js:444-449 | fifty scatter points |
| ChartData.ScatterAt | assets/dimensional-dashboard/js/d3-charts.js:444-449 | a point made from four draws has x and y in [0,100), size in [5,25) and category in {0,1,2} |
| ChartData.ScatterRanges | assets/dimensional-dashboard/js/d3-charts.js:444-449 | x and y lie in [0,100), size in [5,25), and category in {0,1,2} |
| ChartData.PieLabel | assets/dimensional-dashboard/js/d3-charts.js:342 | a slice is labelled "v%" exactly when its value exceeds 5 |
| ChartData.TrafficLabels | assets/dimensional-dashboard/js/d3-charts.js:289-293 | the 5% "Other" slice is unlabelled, while 35% and 10% are labelled |
| ChartData.HourTick | assets/dimensional-dashboard/js/d3-charts.js:422 | an hour tick reads "dh" exactly when d is a multiple of 6 |
| ChartData.FourHourTicks | assets/dimensional-dashboard/js/d3-charts.js:422 | of the 24 hours, exactly 0, 6, 12 and 18 are labelled |
| LiquidMetal.InitialChildren | assets/liquid-metal-commerce/js/three-setup.js:92-120 | the mesh, five spheres with velocities, then two lights without |
| LiquidMetal.InitialSphere | assets/liquid-metal-commerce/js/three-setup.js:96-110 | a sphere made from seven draws is unrotated, has a velocity, and starts with radius in [0.3,0.8), position in [-4,4)²×[-2,2) and velocity components in [-0.01,0.01) |
| LiquidMetal.InitialSphereRanges | assets/liquid-metal-commerce/js/three-setup.js:92-110 | with `Math.random` draws every sphere `init` adds starts in that range |
| LiquidMetal.ChildStep | assets/liquid-metal-commerce/js/three-setup.js:145-156 | a child with a velocity moves by it, turns 0.01 about x and y, and bounces off the 5×5×3 walls. Other children are unchanged |
| Common.ReflectAxis | assets/liquid-metal-commerce/js/three-setup.js:151-154 | the speed is kept, and the velocity is negated exactly when the coordinate is beyond the limit |
| Common.Reflect | assets/quantum-interface/js/particles.js:170-175 | each component keeps its speed and is negated exactly when its coordinate is beyond its limit (or it is zero) |
| LiquidMetal.AxisStep | assets/liquid-metal-commerce/js/three-setup.js:147-154 | a bounce step keeps a body inside, or one step outside and heading back |
| LiquidMetal.ContainedStep | assets/liquid-metal-commerce/js/three-setup.js:145-156 | a contained sphere stays contained and is never more than 0.01 beyond a wall |
| LiquidMetal.InitialContained | assets/liquid-metal-commerce/js/three-setup.js:96-110 | every sphere starts contained |
| LiquidMetal.LiquidScene.constructor | assets/liquid-metal-commerce/js/three-setup.js:92-120 | the scene's children are the initial children, and time starts at 0 |
| LiquidMetal.LiquidScene.Animate | assets/liquid-metal-commerce/js/three-setup.js:132-159 | time advances by 0.01 and the shader sees it. The mesh turns by (0.001, 0.002), and every other child takes one step |
| MotionLibrary.FromVars | assets/motion-design-system/animations/gsap-library.js:151 | a preset without from-variables starts from an empty object |
| MotionLibrary.StaggerAnimation | assets/motion-design-system/animations/gsap-library.js:150-155 | a from-to tween of all elements. Its to-variables are the preset's plus `stagger` (default 0.1), which overrides any preset value |
| MotionLibrary.Trigger | assets/motion-design-system/animations/gsap-library.js:172-182 | caller options override the default trigger key by key, and unmentioned defaults remain |
| MotionLibrary.DefaultTrigger | assets/motion-design-system/animations/gsap-library.js:172-177 | the default trigger has exactly the keys trigger, start, end and toggleActions, and triggers on the element |
| MotionLibrary.ScrollAnimation | assets/motion-design-system/animations/gsap-library.js:171-183 | a from-to tween of the element whose `scrollTrigger` is the merged trigger. All other preset variables are kept, and the variables are exactly the preset's plus `scrollTrigger` |
| MotionLibrary.DefaultScrollTrigger | assets/motion-design-system/animations/gsap-library.js:172-177 | without options the trigger is the element, from "top 80%" to "bottom 20%", with "play none none reverse" |
| MotionLibrary.ParallaxTween | assets/motion-design-system/animations/gsap-library.js:205-216 | element k's tween moves it by -100·speed·(k+1) percent |
| MotionLibrary.Parallax | assets/motion-design-system/animations/gsap-library.js:203-218 | one tween per element |
| MotionLibrary.ParallaxLayers | assets/motion-design-system/animations/gsap-library.js:203-208 | each element moves 100·speed percent farther than the one before it. With the default speed the first element moves by 50 percent |
| MotionLibrary.Category | assets/motion-design-system/animations/gsap-library.js:348 | the entrance presets are used exactly when the category is absent, empty or "entrance" |
| MotionLibrary.Dispatch | assets/motion-design-system/animations/gsap-library.js:346-358 | an element is animated exactly when its preset exists: through scrollAnimation if it has `data-scroll`, otherwise by the preset's from-to tween |
| MotionLibrary.Starts | assets/motion-design-system/animations/gsap-library.js:346-358 | one outcome per element, in document order, each the element's own dispatch |
| MotionLibrary.Present | assets/motion-design-system/animations/gsap-library.js:346-358 | the `forEach` keeps at most one tween per element |
| MotionLibrary.PresentAt | assets/motion-design-system/animations/gsap-library.js:346-358 | the positions that start a tween, strictly increasing, each one that starts a tween listed |
| MotionLibrary.PresentInOrder | assets/motion-design-system/animations/gsap-library.js:346-358 | the k-th tween kept is the tween at the k-th starting position |
| MotionLibrary.PresentSound | assets/motion-design-system/animations/gsap-library.js:346-358 | every tween kept is the outcome of some element |
| MotionLibrary.PresentComplete | assets/motion-design-system/animations/gsap-library.js:346-358 | every element's tween is kept |
| MotionLibrary.AutoInit | assets/motion-design-system/animations/gsap-library.js:346-358 | no more tweens than elements |
| MotionLibrary.AutoInitSound | assets/motion-design-system/animations/gsap-library.js:346-358 | every tween started comes from the preset of some element on the page |
| MotionLibrary.AutoInitComplete | assets/motion-design-system/animations/gsap-library.js:346-358 | every element whose attribute names a known preset gets that preset's tween |
| MotionLibrary.Animated | assets/motion-design-system/animations/gsap-library.js:346-358 | the positions of the elements with a known preset, each once and in increasing (document) order |
| MotionLibrary.AutoInitInOrder | assets/motion-design-system/animations/gsap-library.js:346-358 | one tween per animated element in document order: the k-th tween is the one the k-th animated element dispatches |
| MotionLibrary.AlphabetSize | assets/motion-design-system/animations/gsap-library.js:222 | the scramble alphabet has 26 characters |
| MotionLibrary.RandomChar | assets/motion-design-system/animations/gsap-library.js:231 | a random draw picks a character of the alphabet |
| MotionLibrary.Frame | assets/motion-design-system/animations/gsap-library.js:226-233 | a frame has the text's length. Positions below the iteration show the final characters and the others show alphabet characters |
| MotionLibrary.FullReveal | assets/motion-design-system/animations/gsap-library.js:226-237 | once the iteration reaches the length, the frame is the final text |
| MotionLibrary.ScrambleEnds | assets/motion-design-system/animations/gsap-library.js:239 | with a positive step, after k ticks with k·step ≥ length the counter has reached the length |
| MotionLibrary.IterationAfter | assets/motion-design-system/animations/gsap-library.js:240 | with a positive step the counter is never negative |
| MotionLibrary.Scrambler.constructor | assets/motion-design-system/animations/gsap-library.js:221-223 | the counter starts at 0, and the step is 1/(duration·10) with a default duration of 2 |
| MotionLibrary.Scrambler.Tick | assets/motion-design-system/animations/gsap-library.js:225-241 | a tick writes the frame, clears the interval once the counter has reached the length and then adds one step. A clearing tick shows the final text, and a cleared interval does nothing |
| Text.IntToDecimal | assets/dimensional-dashboard/js/realtime-updates.js:324 | an integer's string starts with '-' exactly when it is negative, and the rest is digits |
| Text.ParseInt | assets/dimensional-dashboard/js/realtime-updates.js:306 | a string with no digit parses to NaN |
| Text.RemoveCommas | assets/dimensional-dashboard/js/realtime-updates.js:306 | the result is no longer than the input and has no comma |
| Text.LocaleString | assets/dimensional-dashboard/js/realtime-updates.js:307 | the en-US string starts with '-' exactly when the number is negative, and otherwise with a digit |
| Text.NatToDecimal | assets/dimensional-dashboard/js/realtime-updates.js:324 | a number's decimal string is non-empty digits without a leading zero |
| Text.DecimalRoundTrip | assets/dimensional-dashboard/js/realtime-updates.js:324 | reading back a number's decimal string gives the number |
| Text.UngroupedIsDecimal | assets/dimensional-dashboard/js/realtime-updates.js:306-307 | removing the commas from a grouped number gives its plain decimal string |
| Text.LocaleRoundTrip | assets/dimensional-dashboard/js/realtime-updates.js:306-307 | parsing a locale string with its commas removed gives back the number |

## Left out

- Rendering is not modelled: three.js scenes, cameras, shaders, D3 scales and axes, SVG and DOM elements, CSS transitions, GSAP's own tweening and `requestAnimationFrame`.
  - The model keeps the values these are given. `updateRealtimeChart` and `initializeCharts` are not modelled.
- Timers are not modelled. `setInterval` and `setTimeout` become methods the caller invokes per tick or per firing: `Tick`, `RemoveItem`, `ResetRevenueColor` and `Scrambler.Tick`.
- Floating point is not modelled: `Float32Array` rounding and IEEE doubles are represented as exact reals.
- `Math.sin`, `Math.cos`, `distanceTo` and `normalize` are parameters, so properties that depend on their values are not proved.
- `Math.random`, `Date.now` and `toLocaleTimeString` are inputs.
- The network's node placement on a circle (cosine and sine of the angle) is an input list of positions.
- `animateNetwork` also rewrites the link lines' endpoints, which touches only the DOM and is not modelled.
- QuantumParticles.ParticleSystem.OnMouseMove requires a positive window size. The source would divide by zero there. The raycaster call has no effect on the particles and is not modelled.
- `startActivityFeed`'s activity table and its timers, and `simulateWebSocket`'s event table, are not modelled. Messages and activities are inputs.
- `toLocaleString` is modelled for the en-US grouping only, and `parseInt` for decimal digits only. Other locales and radix prefixes are not modelled.
- Text.IsSpace lists tab, line feed, vertical tab, form feed, carriage return, space, U+00A0, U+FEFF, U+2028 and U+2029 only; the other Unicode space separators that `parseInt` also skips are not modelled.
- Frame: strings are sequences of Unicode code points, while the source's `split("")`, `.length` and indexing count UTF-16 code units. For text outside the Basic Multilingual Plane (emoji, for example) the frame's length and the position where the reveal stops differ from the source.
- Scrambler.Tick: the stop test `iteration >= finalText.length` compares with the code-point length, not the UTF-16 length the source uses; the two differ only for text outside the Basic Multilingual Plane.
- MotionLibrary.Scrambler.constructor requires a non-zero duration. A duration of 0 makes the source's step Infinity.
- MotionLibrary.Scrambler.Tick takes one draw per character, even for revealed ones, where the source draws only for unrevealed positions.
- The animation presets are an input table. JavaScript key order, prototype lookups and `undefined` values in preset objects are not modelled.
- `createTimeline`, `mouseFollow`, `magneticHover`, the `ComplexAnimations` sequences and the `.btn` hover set-up are outside this model.
- ChartData.TimeSeries represents dates as day numbers counted from today, so month boundaries of `setDate` are not modelled.
