# orderparams — a verified model of the bond-order cluster pipeline

orderparams computes Steinhardt bond-order parameters for particles in a
periodic simulation box. It then finds the largest crystalline cluster and
reports on it.

The pipeline runs in these stages:

- For every particle it finds the neighbours within `nsep` under
  minimum-image periodic boundaries.
- It sums the spherical harmonics of every neighbour separation into one
  row of `2l+1` complex numbers per particle.
- It normalises those rows (`qlmtildes`) or averages them (`qlmbars`).
- It counts crystal links, which are neighbour pairs whose normalised rows
  have a dot product of at least `linkval`.
- It calls a particle crystalline when it has at least `nlinks` such links.
- It joins neighbouring crystal particles into a graph and takes the
  largest connected component.
- From that cluster it reports one of these: its size (`NCluster`), the Q
  value of its averaged rows (`QCluster`, `QGlobal`), or its gyration
  tensor after periodic images are unwrapped (`GTensor`).

Around this sit a few smaller pieces:

- the bcc/hcp/fcc/liquid classification loop of the driver;
- `parfrac`, `csizeld` and `csizetf`;
- whitespace tokenising and the line rules of the parameter and XYZ
  readers.

The model uses these conventions:

- Doubles are modelled as exact `real`s, and complex numbers as pairs of reals.
- The transcendental pieces are fields of the datatype `Base.Analytic`,
  which every stage that needs them takes as a parameter. They are the
  spherical harmonic of a separation, `sqrt`, `pi`, and `qls`/`wls`, which
  the code declares but never defines. The model proves nothing about
  their values.
- A division by zero in the source (0/0, which gives NaN) is `None` in the
  model.
- A Boost `multi_array` is a Dafny `array2`.
- A `vector` is a `seq`, or an `array` where the source writes into it in place.
- A Boost graph is a vertex count plus a list of edges.

## Modules

| file | module | source |
|---|---|---|
| base.dfy | `Base` | particle, vector and complex values shared by every stage |
| box.dfy | `PeriodicBox` | src/box.h |
| qlm_functions.dfy | `QlmFunctions` | src/qlmfunctions.cpp |
| conn_components.dfy | `ConnComponents` | src/conncomponents.cpp, with connected components written out |
| utility.dfy | `Utility` | src/utility.h and src/utility.cpp |
| gyration.dfy | `GyrationTensor` | src/gyration.cpp, and the duplicated functions of src/gtensor.cpp |
| gtensor.dfy | `GTensorShape` | src/gtensor.cpp (`getgytensor` and the `GTensor` constructor) |
| orderparameter.dfy | `OrderParameter` | src/orderparameter.h and src/orderparameter.cpp |
| qdata.dfy | `SteinhardtData` | src/qdata.cpp |
| orderparameters.dfy | `OrderParameters` | src/orderparameters.h and src/orderparameters.cpp |
| classify.dfy | `Classification` | src/main.cpp:50-90 |
| readwrite.dfy | `ReadWrite` | src/readwrite.cpp |

## Model

| member | source | states |
|---|---|---|
| PeriodicBox.MakeBox | src/box.h:15-16 | the constructor stores the three lengths, nsep and the z periodicity as given, and caches nsepsq = nsep·nsep |
| PeriodicBox.MinImage | src/box.h:88-107 | one minimum-image wrap moves a difference by at most one box length; a difference in [-L/2, L/2] (ends included) is kept, and one within 3L/2 lands in [-L/2, L/2] |
| PeriodicBox.SepInto | src/box.h:81-113 | `sep` writes the x, y and z minimum-image separation into the caller's three-element array |
| PeriodicBox.SepSq | src/box.h:71-76 | `sepsq` is the sum of the squared separation components and is never negative |
| PeriodicBox.IsNeighSep | src/box.h:137-146 | `isneigh(s, rsq)` is true exactly when every component is below nsep and s·s < nsepsq; rsq is written only when the box pre-filter passes |
| PeriodicBox.IsNeigh | src/box.h:118-132 | `isneigh(p1, p2, rsq)` is the same two-stage test on the particles' separation; when it is true, rsq equals `sepsq(p1, p2)` |
| PeriodicBox.Wrap | src/box.h:56-63 | one periodic wrap of a coordinate moves it by at most one box length, keeps a coordinate in [0, L], and brings one in [-L, 2L] into [0, L] |
| PeriodicBox.PosValid | src/box.h:41-66 | with z not periodic and z outside [0, lz] it answers false and leaves pos untouched; otherwise it wraps x, y (and z when periodic) once each and answers true |
| PeriodicBox.MinImageOdd | src/box.h:88-99 | the wrap is odd: wrapping -d gives minus the wrap of d |
| PeriodicBox.MinImageIdempotent | src/box.h:88-99 | wrapping an already wrapped difference changes nothing |
| PeriodicBox.SepAntisymmetric | src/box.h:81-113 | sep(p1, p2) = -sep(p2, p1), component by component |
| PeriodicBox.SepBounds | src/box.h:88-107 | for raw x/y differences within 3L/2 the separation lies in [-L/2, L/2]; without z periodicity the z separation is the raw difference |
| PeriodicBox.NeighbourIsSphereTest | src/box.h:125-131 | over the reals the box pre-filter is implied by the sphere test, so the neighbour test is exactly s·s < nsep² |
| PeriodicBox.NeighbourSymmetric | src/box.h:118-132 | p1 is a neighbour of p2 exactly when p2 is a neighbour of p1 |
| PeriodicBox.UnitPairAreNeighbours | src/box.h:118-132 | two particles one unit apart in a default box are neighbours at squared distance 1 |
| Utility.Range | src/utility.h:8-17 | `range(s, e)` returns s, s+1, …, e-1: length e-s, strictly ascending |
| Utility.Reindex | src/utility.h:24-29 | `reindex` overwrites indx1[i] with indx2[old indx1[i]] in place and keeps the length |
| Utility.ReindexAscending | src/utility.cpp:21-26 | reindexing an ascending list through an ascending list gives an ascending list of elements of indx2, of the same length |
| Utility.ReindexThroughRange | src/utility.cpp:7-14 | reindexing through range(0, n) leaves every list of indices below n unchanged |
| QlmFunctions.NeighboursUpTo | src/qlmfunctions.cpp:128-136 | the neighbour list of particle i is strictly ascending and holds only indices below the scan position |
| QlmFunctions.NeighboursUpToMembers | src/qlmfunctions.cpp:128-136 | j is in the neighbour list of i exactly when j ≠ i and the two are neighbours under the box test |
| QlmFunctions.NeighboursStep | src/qlmfunctions.cpp:129-135 | visiting j appends j to the list exactly when j ≠ i and j is a neighbour of i |
| QlmFunctions.HarmSumStep | src/qlmfunctions.cpp:152-156 | visiting j adds the harmonic of the separation to every entry of row i exactly when j is a neighbour |
| QlmFunctions.RawQlm | src/qlmfunctions.cpp:120-121 | the matrix has one row per particle, each 2l+1 long |
| QlmFunctions.RawQlmEntry | src/qlmfunctions.cpp:152-156 | entry (i, k) is the sum, over all neighbours j of i, of the harmonic for m = k - l |
| QlmFunctions.AddHarmonics | src/qlmfunctions.cpp:152-156 | the inner loop adds the harmonic for m = k - l to every entry of row i and to no other row |
| QlmFunctions.VisitPair | src/qlmfunctions.cpp:130-157 | one visit (i, j) appends j to lneigh[i], adds one to numneigh[i] and adds the harmonic to row i exactly when j is a neighbour; every other row and list is unchanged |
| QlmFunctions.NeighbourRow | src/qlmfunctions.cpp:129-159 | the scan over j leaves lneigh[i] extended by i's ascending neighbour list, numneigh[i] raised by its length, row i equal to its harmonic sum, and all else unchanged |
| QlmFunctions.Qlms | src/qlmfunctions.cpp:114-169 | `qlms` returns a fresh npar × (2l+1) matrix equal to the harmonic sums and extends every particle's count and list by its neighbours |
| QlmFunctions.NeighboursSymmetric | src/qlmfunctions.cpp:128-136 | j is in i's neighbour list exactly when i is in j's |
| QlmFunctions.LonelySum | src/qlmfunctions.cpp:120-121 | a row with no neighbours sums to zero |
| QlmFunctions.LonelyRowIsZero | src/qlmfunctions.cpp:120-121 | a particle with no neighbours keeps an all-zero row |
| QlmFunctions.BarMatrix | src/qlmfunctions.cpp:99-109 | `qlmbars` keeps the number of rows |
| QlmFunctions.ScaleRow | src/qlmfunctions.cpp:90-91 | dividing row i by d changes row i entry by entry and no other row |
| QlmFunctions.QlmBars | src/qlmfunctions.cpp:99-109 | `qlmbars` divides every row with at least one neighbour by its neighbour count, in place; rows with none are kept |
| QlmFunctions.NormSqPrefixStep | src/qlmfunctions.cpp:87-88 | the squared norm grows by the norm of each added entry |
| QlmFunctions.RowNormSq | src/qlmfunctions.cpp:86-88 | the loop computes the squared Euclidean norm of row i |
| QlmFunctions.TildeMatrix | src/qlmfunctions.cpp:80-94 | `qlmtildes` keeps the number of rows |
| QlmFunctions.QlmTildes | src/qlmfunctions.cpp:80-94 | `qlmtildes` divides every row with at least one neighbour by the square root of its squared norm, in place; rows with none are kept; a row with neighbours whose root is zero (0/0, NaN in the program) is reported in `nan`, which flags exactly those rows |
| QlmFunctions.CNormScaled | src/qlmfunctions.cpp:91 | dividing a complex number by d divides its norm by d² |
| QlmFunctions.NormSqScaled | src/qlmfunctions.cpp:90-91 | dividing a row by d divides its squared norm by d² |
| QlmFunctions.TildeRowUnitNorm | src/qlmfunctions.cpp:85-92 | when sqrt is a square root, a row with a nonzero norm has squared norm exactly 1 after `qlmtildes` |
| QlmFunctions.NanRowNoLinks | src/qlmfunctions.cpp:36-39 | a NaN row has a NaN link value with every neighbour, and `linval >= linkval` is false for NaN, so it counts no links |
| QlmFunctions.NanRowNotCrystal | src/qlmfunctions.cpp:38-44 | with nlinks ≥ 1 a particle whose normalised row is NaN is never crystalline |
| QlmFunctions.CrystalsUpTo | src/qlmfunctions.cpp:28-46 | the crystal list is strictly ascending, lies in [nsurf, npar), and holds i exactly when numneigh[i] ≥ nlinks and at least nlinks of i's links have value ≥ linkval |
| QlmFunctions.LinkValueOf | src/qlmfunctions.cpp:34-37 | the loop computes Σ_m (re·re + im·im) of rows i and k, the link value; it is NaN (None) when either row is NaN |
| QlmFunctions.CountLinks | src/qlmfunctions.cpp:31-40 | the loop counts the neighbours of i whose link value is at least linkval; a NaN link value never counts |
| QlmFunctions.XtalPars | src/qlmfunctions.cpp:16-48 | `xtalpars` returns the crystal list: strictly ascending, within [nsurf, npar), equal to the selection by link count |
| QlmFunctions.NoLinksAllCrystal | src/qlmfunctions.cpp:30-44 | with nlinks = 0 every index in [nsurf, npar) is crystalline |
| QlmFunctions.AddRowTo | src/qlmfunctions.cpp:59-61 | one accumulation step adds row r of qlmb into the running sum |
| QlmFunctions.DivideAll | src/qlmfunctions.cpp:64-66 | every averaged entry is divided by the number of indices |
| QlmFunctions.VectorNormSq | src/qlmfunctions.cpp:68-71 | the loop computes the squared norm of the averaged row |
| QlmFunctions.SumRows | src/qlmfunctions.cpp:56-62 | the accumulation returns, for every m, the sum over pnums of column m |
| QlmFunctions.Qpars | src/qlmfunctions.cpp:54-75 | `Qpars` is sqrt(4π/(2l+1) · ‖mean of the indexed rows‖²), and is None (0/0) exactly when pnums is empty |
| QlmFunctions.ColSumAppend | src/qlmfunctions.cpp:58-62 | the column sum over a concatenation is the sum of the two column sums |
| QlmFunctions.ColSumRemoveAt | src/qlmfunctions.cpp:58-62 | taking one index out of pnums takes its row out of the column sum |
| QlmFunctions.ColSumPermutation | src/qlmfunctions.cpp:58-62 | the column sums do not depend on the order of pnums |
| QlmFunctions.QValuePermutation | src/qlmfunctions.cpp:54-75 | `Qpars` does not depend on the order of pnums; duplicates count each time |
| ConnComponents.ReachSym | src/conncomponents.cpp:42 | reachability in the undirected graph is symmetric |
| ConnComponents.ReachTrans | src/conncomponents.cpp:42 | reachability is transitive |
| ConnComponents.SameRep | src/conncomponents.cpp:42 | two vertices have the same lowest reachable vertex exactly when they are connected |
| ConnComponents.CompIdSame | src/conncomponents.cpp:42 | two vertices get the same component number exactly when they are connected |
| ConnComponents.CompIdOrder | src/conncomponents.cpp:42 | components are numbered in the order of their lowest vertex, as Boost numbers them |
| ConnComponents.StableLabelsAreReps | src/conncomponents.cpp:42 | once no edge can lower a label, every label is its vertex's lowest reachable vertex |
| ConnComponents.LabelPass | src/conncomponents.cpp:42 | one labelling pass keeps every label a reachable vertex, and either lowers the label total or reports that the labels are stable |
| ConnComponents.ComponentReps | src/conncomponents.cpp:42 | repeated passes label every vertex with its lowest reachable vertex |
| ConnComponents.ConnectedComponents | src/conncomponents.cpp:41-42 | `connected_components` gives each vertex its component number and returns the number of components |
| ConnComponents.CountComponents | src/conncomponents.cpp:45-47 | ncomp[c] is the number of vertices in component c |
| ConnComponents.FirstArgMax | src/conncomponents.cpp:67 | `max_element` picks a position of a maximum, the first one on ties |
| ConnComponents.MaxElement | src/conncomponents.cpp:67 | the scan returns the first position of the maximum |
| ConnComponents.Members | src/conncomponents.cpp:69-73 | the collected vertices are ascending and are exactly the vertices in the chosen component |
| ConnComponents.ComponentSizes | src/conncomponents.cpp:59-65 | the component numbers and the size of every component |
| ConnComponents.BopXBulk | src/conncomponents.cpp:38-51 | `bopxbulk` is the size of some component and no component is larger; it is the size of `largestcomponent`; on a graph with no vertices it is None |
| ConnComponents.LargestComponent | src/conncomponents.cpp:56-76 | `largestcomponent` returns the ascending vertices of the first largest component |
| ConnComponents.LargestIsComponent | src/conncomponents.cpp:69-73 | any two returned vertices are connected, and the returned set is closed under edges |
| ConnComponents.LargestIsLargest | src/conncomponents.cpp:59-67 | the result is empty only for an empty graph; no component is larger, and every component numbered before it is strictly smaller |
| ConnComponents.BopXBulkIsLargestSize | src/conncomponents.cpp:38-51 | the size `bopxbulk` returns is the size of the returned largest component |
| ConnComponents.RowEdgesMembers | src/conncomponents.cpp:28-30 | row i of the scan adds edge (i, c) exactly for c > i whose particles are neighbours |
| ConnComponents.EdgesFromMembers | src/conncomponents.cpp:27-30 | the edges are exactly the pairs a < c of neighbouring crystal particles |
| ConnComponents.VertexCount | src/conncomponents.cpp:22-30 | vertices exist only through edges: the count is one more than the largest endpoint, and zero with no edges |
| ConnComponents.XGraphBound | src/conncomponents.cpp:20-33 | the graph is well formed and has at most as many vertices as xpars has entries |
| ConnComponents.CrystalPairTest | src/conncomponents.cpp:29 | the neighbour test of two crystal particles |
| ConnComponents.AddRow | src/conncomponents.cpp:28-30 | the inner loop appends row i's edges |
| ConnComponents.GetXGraph | src/conncomponents.cpp:20-33 | `getxgraph` has edge (i, j) exactly when i < j and particles xpars[i] and xpars[j] are neighbours; vertex ids are positions in xpars |
| GyrationTensor.ColRowOfSlot | src/gyration.cpp:119-121 | slot i + j·n decodes back to particle i and image j |
| GyrationTensor.SlotOfColRow | src/gyration.cpp:117-121 | every slot below 9n is i + j·n for exactly one i < n and j < 9 |
| GyrationTensor.Replicated | src/gyration.cpp:117 | `replicate` returns 9·npar particles |
| GyrationTensor.ReplicatedAt | src/gyration.cpp:113-145 | entry i + j·npar is pars[i] shifted by the j-th of (0,0), (0,+Ly), (+Lx,+Ly), (+Lx,0), (+Lx,-Ly), (0,-Ly), (-Lx,-Ly), (-Lx,0), (-Lx,+Ly) |
| GyrationTensor.ReplicatedCentre | src/gyration.cpp:120-141 | the first npar entries are the input itself |
| GyrationTensor.PlaceCopies | src/gyration.cpp:120-141 | one pass of the outer loop writes the nine images of pars[i] and nothing else |
| GyrationTensor.ShiftCopies | src/gyration.cpp:120-141 | the copies and offsets place every image of p in its slot and touch no other slot |
| GyrationTensor.ShiftRightCopies | src/gyration.cpp:125-131 | images 1 to 4 (top, top right, right, bottom right) are offset correctly |
| GyrationTensor.ShiftLeftCopies | src/gyration.cpp:133-141 | images 5 to 8 (bottom, bottom left, left, top left) are offset correctly |
| GyrationTensor.Replicate | src/gyration.cpp:113-145 | the loop returns the replicated set |
| GyrationTensor.ReplicatedIsImage | src/gyration.cpp:113-145 | every replicated particle is one of the nine images of some input particle |
| GyrationTensor.NoPeriodic | src/gyration.cpp:87-108 | the unwrapped cluster has exactly as many particles as the input |
| GyrationTensor.Pick | src/gyration.cpp:101-105 | the copy loop takes exactly ncl particles |
| GyrationTensor.PosNoPeriodic | src/gyration.cpp:87-108 | `xtalposnoperiodic` scales only x and y by 20 and returns the first ncl members of the largest cluster of the replicated set, or None when that cluster is smaller than ncl |
| GyrationTensor.Gather | src/gyration.cpp:103-105 | the copy loop sets ret[i] = repcpars[cluspars[i]] |
| GyrationTensor.NoPeriodicImages | src/gyration.cpp:87-108 | every unwrapped particle is a periodic image of an input particle |
| GyrationTensor.CofMass | src/gyration.cpp:24-42 | `cofmass` is the component-wise mean of the positions, None (0/0) for no particles |
| GyrationTensor.SumPosTranslate | src/gyration.cpp:24-42 | translating n particles by d adds n·d to the position sum |
| GyrationTensor.CentreOfMassTranslate | src/gyration.cpp:24-42 | translating the particles translates the centre of mass |
| GyrationTensor.AddUpperOuter | src/gyration.cpp:56-66 | one particle adds rcm_j·rcm_k to every entry on or above the diagonal, and nothing below |
| GyrationTensor.DivideEntries | src/gyration.cpp:70-74 | every entry is divided by npar |
| GyrationTensor.GySumSymmetric | src/gyration.cpp:66-69 | the sum of rcm_j·rcm_k equals the sum of rcm_k·rcm_j |
| GyrationTensor.UpperSums | src/gyration.cpp:56-66 | the accumulation leaves Σ_i rcm_j·rcm_k on and above the diagonal and zero below it |
| GyrationTensor.GyTensor | src/gyration.cpp:47-78 | `gytensor` returns (1/N)·Σ_i rcm_j·rcm_k for every j, k, None (0/0) for no particles |
| GyrationTensor.GyrationSymmetric | src/gyration.cpp:66-69 | the gyration tensor is symmetric |
| GyrationTensor.GyrationDiagonal | src/gyration.cpp:56-76 | every diagonal entry is ≥ 0 |
| GyrationTensor.GyrationTranslate | src/gyration.cpp:47-78 | translating every particle by the same vector leaves the tensor unchanged |
| GyrationTensor.GyrationOfPair | src/gyration.cpp:147-171 | particles at (0,0,0) and (1,0,0) give G_xx = 0.25 and every other entry 0 |
| GTensorShape.ClusterParticles | src/gtensor.cpp:172-181 | one particle per cluster index |
| GTensorShape.CopyCluster | src/gtensor.cpp:169-181 | `getgytensor` copies only the positions of the cnums particles and gives each copy symbol 'S' |
| GTensorShape.GetGyTensor | src/gtensor.cpp:169-187 | `getgytensor` is the gyration tensor of the unwrapped cluster copy |
| GTensorShape.ShapeTensorProperties | src/gtensor.cpp:130-187 | no cluster gives no tensor; a tensor, when there is one, is symmetric with non-negative diagonal |
| GTensorShape.GTensor.constructor | src/gtensor.cpp:15-19 | the `gtensor` field equals `getgytensor(psystem, cnums)` |
| OrderParameter.QGlobal | src/orderparameter.h:67-68 | `QGlobal(nsur, lv)` is a QCluster with nlinks = 0 and linkval = 0.0 |
| OrderParameter.NeighbourDataValid | src/orderparameter.cpp:33-38 | starting from zero counts and empty lists, `qlms` leaves every count equal to its list's length, with every entry a particle index |
| OrderParameter.TildeShape | src/orderparameter.cpp:38-39 | normalising keeps the npar × (2l+1) shape |
| OrderParameter.TildeNans | src/orderparameter.cpp:38-39 | one NaN flag per particle for the normalised rows |
| OrderParameter.CrystalParticles | src/orderparameter.cpp:38-42 | the crystal particles are valid particle indices |
| OrderParameter.ClusterIndices | src/orderparameter.cpp:74-75 | the reindexed cluster holds valid particle indices |
| OrderParameter.LargestIndexesCrystals | src/orderparameter.cpp:74-75 | the largest component's vertices index into the crystal list, ascending |
| OrderParameter.ClusterIsCrystal | src/orderparameter.cpp:74-75 | after `reindex` the cluster is ascending absolute particle indices, every one crystalline and ≥ nsurf, and no longer than the crystal list |
| OrderParameter.NClusterIsClusterSize | src/orderparameter.cpp:48 | the value of `NCluster` equals the number of clusternums in `QCluster`, for the same inputs |
| OrderParameter.QGlobalSelectsAll | src/orderparameter.h:67-68 | for `QGlobal` every particle in [nsurf, npar) is crystalline, so its graph is the neighbour graph of all non-surface particles |
| OrderParameter.CopyMatrix | src/orderparameter.cpp:64 | the copy has the same shape and entries |
| OrderParameter.CrystalStage | src/orderparameter.cpp:56-71 | from zero counts and empty lists: raw sums in qlmb, crystal list from the normalised copy, the crystal graph |
| OrderParameter.ReindexedCluster | src/orderparameter.cpp:74-75 | `largestcomponent` then `reindex` gives the largest cluster as particle indices |
| OrderParameter.EvalNCluster | src/orderparameter.cpp:29-49 | `NCluster` returns the size of the largest component of the crystal graph built from the normalised rows |
| OrderParameter.EvalQCluster | src/orderparameter.cpp:54-78 | `QCluster` returns `Qpars` of the raw rows over the largest cluster's particle indices; None exactly when the cluster is empty |
| OrderParameter.CopyCrystalCluster | src/orderparameter.cpp:105-116 | exactly as many particles as clusternums has entries, particle i taking the position of particles[xps[clusternums[i]]] |
| OrderParameter.EvalGTensor | src/orderparameter.cpp:83-123 | `GTensor` computes the gyration tensor of the unwrapped largest cluster |
| SteinhardtData.BarRows | src/qdata.cpp:108 | the averaged matrix has one row per particle |
| SteinhardtData.GlobalQ | src/qdata.cpp:131-132 | Q over every non-surface particle; None exactly when there are none |
| SteinhardtData.NeighbourSums | src/qdata.cpp:99-108 | raw sums, the normalised copy, the averaged copy, and the neighbour counts and lists from one `qlms` call |
| SteinhardtData.CrystalCluster | src/qdata.cpp:119-127 | crystal list from the normalised copy with the same counts and lists; cnums ascending absolute indices, all crystalline and ≥ nsurf |
| SteinhardtData.Analyse | src/qdata.cpp:99-132 | ql/wl from the raw sums and qlbar/wlbar from the averaged copy; qcluster and qglobal are `Qpars` of the raw sums |
| SteinhardtData.QData.constructor | src/qdata.cpp:88-133 | the fields hold the inputs unchanged and the values above |
| SteinhardtData.QData.GetNCluster | src/qdata.cpp:137-140 | returns the length of cnums, which is at most npar − nsurf because cnums holds ascending non-surface indices; keeps the store's invariant |
| SteinhardtData.QData.GetQCluster | src/qdata.cpp:144-147 | returns the stored cluster Q and keeps the store's invariant |
| SteinhardtData.QData.GetQGlobal | src/qdata.cpp:151-154 | returns the stored global Q and keeps the store's invariant |
| SteinhardtData.StoreMatchesOrderParameters | src/qdata.cpp:126-130 | the stored cluster size is what `NCluster` returns for a non-empty cluster, and the stored cluster Q is None exactly when the cluster is empty |
| OrderParameters.LabelCount | src/orderparameters.h:19-24 | the count never exceeds the number of indices |
| OrderParameters.Fraction | src/orderparameters.h:26 | the fraction is None (0/0) exactly when cnums is empty |
| OrderParameters.Parfrac | src/orderparameters.h:12-27 | `parfrac` is (number of i with pclass[cnums[i]] == plabel) divided by the length of cnums |
| OrderParameters.FractionInUnitInterval | src/orderparameters.h:19-26 | for non-empty cnums the fraction lies in [0, 1] |
| OrderParameters.LabelCountAppend | src/orderparameters.h:19-24 | counts over a concatenation add up |
| OrderParameters.LabelCountRemoveAt | src/orderparameters.h:19-24 | removing one index takes exactly its own match out of the count |
| OrderParameters.LabelCountPermutation | src/orderparameters.h:19-24 | the count does not depend on the order of cnums, and duplicates count each time |
| OrderParameters.FractionPermutation | src/orderparameters.h:19-26 | `parfrac` does not depend on the order of cnums |
| OrderParameters.CSizeLD | src/orderparameters.cpp:7-10 | `csizeld` is the length of ldcnums, so it is never negative |
| OrderParameters.CSizeTF | src/orderparameters.cpp:13-16 | `csizetf` is the length of tfcnums, so it is never negative |
| OrderParameters.CSizesAgree | src/orderparameters.cpp:7-16 | the two agree, and depend only on the length |
| Classification.Classify | src/main.cpp:63-88 | solid exactly when q6bar > 0.3; bcc when also w6bar > 0; hcp when w6bar ≤ 0 and w4bar > 0; fcc otherwise |
| Classification.Bump | src/main.cpp:68-86 | each classified particle adds exactly one to the total |
| Classification.CountStructures | src/main.cpp:50-90 | the loop's counters are the tally of the classifications of the particles from nsurf on |
| Classification.TallyTotal | src/main.cpp:50-90 | the four counters add up to npar - nsurf when nsurf ≤ npar, and to 0 otherwise |
| Classification.SurfaceUncounted | src/main.cpp:63 | particles below nsurf increment no counter |
| Classification.TallyMonotone | src/main.cpp:50-51 | the counters start at zero and never decrease |
| Classification.LiquidCounted | src/main.cpp:84-88 | the liquid count is the number of non-surface particles with q6bar ≤ 0.3 |
| ReadWrite.FirstNonSpace | src/readwrite.cpp:39 | `find_if(not_space)` stops at the first non-space at or after i, or at the end |
| ReadWrite.FirstSpace | src/readwrite.cpp:42 | `find_if(space)` stops at the first space at or after i, or at the end |
| ReadWrite.Split | src/readwrite.cpp:30-51 | `split` returns the words of the string |
| ReadWrite.TakeWord | src/readwrite.cpp:39-48 | one iteration takes the word from i to the next space and continues from there |
| ReadWrite.SkipSpaces | src/readwrite.cpp:39 | skipping leading spaces does not change the words |
| ReadWrite.WordsAreWords | src/readwrite.cpp:30-51 | every token is non-empty and contains no whitespace |
| ReadWrite.ConcatWords | src/readwrite.cpp:36-49 | the tokens in order, concatenated, are the input with whitespace removed |
| ReadWrite.NoWordsAllSpace | src/readwrite.cpp:39-45 | `split` is empty exactly when the string is empty or all whitespace |
| ReadWrite.SplitJoin | src/readwrite.cpp:36-49 | splitting non-empty whitespace-free words joined by spaces gives the words back |
| ReadWrite.ReadParams | src/readwrite.cpp:76-98 | `readparams` folds the line rule over the lines in order |
| ReadWrite.ParamsLastWins | src/readwrite.cpp:88-93 | a key is set exactly when some non-comment line has exactly two tokens with that key, and then it holds the value of the last such line |
| ReadWrite.RowParticle | src/readwrite.cpp:162-171 | a row replaces the position (and, with symbols, the symbol and type) of the carried particle and keeps everything else |
| ReadWrite.ReadRows | src/readwrite.cpp:145-180 | one stored particle per accepted row |
| ReadWrite.AcceptedCountPrefix | src/readwrite.cpp:145-180 | reading fewer lines accepts no more rows |
| ReadWrite.RowChecks | src/readwrite.cpp:149-160 | a line is accepted exactly when it is not blank and has 3 + symbols tokens |
| ReadWrite.StoreRow | src/readwrite.cpp:173-174 | `allpars[nread] = par` appends to the stored prefix and changes nothing after it |
| ReadWrite.ReadXyz | src/readwrite.cpp:102-189 | `readxyz` returns npar particles whose first nread are the accepted rows in order, the rest default particles; nread is the number of accepted rows |
| ReadWrite.BlankRowSkipped | src/readwrite.cpp:151-153 | a blank line is never a row |

## Left out

- File and console I/O: the streams of `readparams` and `readxyz` become a sequence of lines; `writexyz` and every printing statement are not part of this model.
- The eigen-decomposition (`diagonalize`) and what follows it: the `GTensor` operator returns its tensor rather than eig0² + eig1², and the eigenvalue fields of the `GTensor` class and `QData::getClusterShape` are not part of this model.
- The spherical harmonic `ylm`, the `acos`/`sqrt` angle computation, `sqrt`, `pi`, `qls` and `wls` are function parameters about which nothing is assumed, except in `QlmFunctions.TildeRowUnitNorm`, which assumes that `sqrt` is a square root.
- Floating-point rounding: every double is an exact real, so properties such as the unit norm hold exactly in the model and only approximately in the program.
- `atof` is a parameter of `ReadWrite.ReadXyz`; the failure modes of the XYZ header (a missing file, a non-integer first line) are part of the stream handling and are not modelled.
- `Box::getvalidifnot`, `Box::setdims`, `NCluster::xpars` and `qavgroup` are declared but never defined in the source; `setdims` is modelled by the enlargement it evidently performs (`GyrationTensor.BigBox`).
- The `main` of gyration.cpp is a driver; only its two-particle example is kept, as `GyrationTensor.GyrationOfPair`.
- `QlmFunctions.QlmTildes`: a row with neighbours whose norm has square root zero becomes NaN (0/0) in the program. The model keeps that row's entries and flags it in `nan`. Every link test that involves a flagged row is false, as a comparison with NaN is. The NaN entries themselves are not represented, so nothing else may read a flagged row of the normalised matrix; no caller does.
- `QlmFunctions.XtalPars`: requires 0 ≤ nsurf ≤ npar. The loop at src/qlmfunctions.cpp:28 runs `i != npar` upward from nsurf, so it never ends when nsurf > npar and reads out of range when nsurf < 0. `OrderParameter.CrystalStage`, `OrderParameter.EvalNCluster`, `OrderParameter.EvalQCluster`, `OrderParameter.EvalGTensor`, `SteinhardtData.CrystalCluster`, `SteinhardtData.Analyse` and `SteinhardtData.QData.constructor` inherit this requirement.
- `SteinhardtData.BarRows`: src/qdata.cpp:108 calls `qlmbars(qlm, lneigh, lval)`, which is only declared (src/qlmfunctions.h:12-13). It is modelled as the in-place division by neighbour counts of src/qlmfunctions.cpp:99-109, not as an average over the neighbours' rows.
- `ConnComponents.BopXBulk`: returns None on a graph with no vertices, where the source dereferences `max_element` of an empty range.
- `GyrationTensor.PosNoPeriodic`: returns None when the largest replicated cluster has fewer than ncl particles, where the source reads past the end of `cluspars`.
- `ReadWrite.ReadXyz`: requires no more accepted rows than npar, because the source stores `allpars[nread]` without a bounds check; the uninitialised `par` of the source is the parameter `par0`.
- `Utility.Range`: requires start ≤ end, because the source loop does not end otherwise.
- `SteinhardtData.GlobalQ`: requires nsurf ≤ npar, where `range(nsurf, npar)` would not terminate.
- Negative `lval`: the harmonic order is a natural number; a negative value would give a matrix of negative width.
- The `NCluster` and `GTensor` operators normalise the raw sums in place, where the model normalises a copy; the value they return is the same.
- Boost's `connected_components` is replaced by lowest-reachable-vertex labelling, with components numbered in the order of their lowest vertex, which is how Boost's depth-first search numbers them.

## Notes on the source

- `QGlobal` is documented as the Q value of the whole system without surface particles. Because it is a `QCluster` with nlinks = 0, every non-surface particle is crystalline. Its value is therefore `Qpars` over the largest neighbour-connected component of non-surface particles, not over all of them (`OrderParameter.QGlobalSelectsAll`). `QData`'s `qglobal` does average over every non-surface particle (`SteinhardtData.GlobalQ`).
- `QData` calls value-returning `qlmtildes(qlm, numneigh, lval)` and `qlmbars(qlm, lneigh, lval)`, which src/qlmfunctions.h declares but src/qlmfunctions.cpp defines only in place, with `qlmbars` taking neighbour counts. The model normalises and averages copies of the raw sums with the in-place definitions. For `qlmtildes` the declared form takes the same arguments. For `qlmbars` the declared form takes the neighbour lists, and its definition is not part of this model. The model assumes it divides by each list's length, which equals the particle's count (`OrderParameter.NeighbourDataValid`).
- `QData`'s `qcluster` and `qglobal`, and the `QCluster` operator, apply `Qpars` to the raw neighbour sums, not to the rows divided by the neighbour count. The model does the same.
- src/gyration.cpp and src/gtensor.cpp define `replicate`, `cofmass`, `gytensor` and the unwrapping step twice with the same behaviour; src/utility.h and src/utility.cpp define `range` and `reindex` twice. Each is modelled once.
- In `readparams`, an empty line has no '#' as its first character and yields no tokens, so it changes nothing.
