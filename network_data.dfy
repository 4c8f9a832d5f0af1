/**
 * The data model of the trainer: network definitions, network parameters,
 * training configuration and examples, and the constructors that build a
 * network's parameter arrays from its layer sizes.
 *
 * Every per-layer array is indexed by layer: index 0 is the input layer,
 * whose weight matrix is a 0 x 0 placeholder and whose coefficient is unused.
 */
module NetworkData {
  import opened Linalg
  import opened Activation

  datatype Option<T> = None | Some(value: T)

  /** A network as a definition file describes it. */
  datatype NetworkDefn = NetworkDefn(layers: seq<nat>, activationCoeffs: seq<real>, activationFn: string)

  /**
   * The parameters of a network: the value a network object holds, copies
   * with `clone()` and restores from a snapshot. `weights[i]` maps layer
   * `i - 1` to layer `i`.
   */
  datatype Net = Net(
    layerSizes: seq<nat>,
    activationCoeffs: seq<real>,
    weights: seq<Matrix>,
    biases: seq<Vector>,
    activationFn: ActivationFunction)

  /**
   * Training configuration. `epochLogPeriod` only paces progress reports
   * and `batchSize` is read by the batch supplier, not by the trainer.
   */
  datatype TrainConfig = TrainConfig(
    learningRate: real,
    momentumRate: Option<real>,
    validationRatio: real,
    sequentialValidationFailuresRequired: nat,
    maxEpochs: Option<nat>,
    epochLogPeriod: Option<nat>,
    batchSize: Option<real>,
    regularizationParam: real)

  /** One labelled example: the input vector and the target output vector. */
  datatype Example = Example(input: Vector, target: Vector)

  /** Each vector as an example whose target is its input, as the autoencoder trainer uses them. */
  function SelfPaired(vs: seq<Vector>): (exs: seq<Example>)
    ensures |exs| == |vs| && forall k :: 0 <= k < |vs| ==> exs[k].input == vs[k] && exs[k].target == vs[k]
  {
    seq(|vs|, k requires 0 <= k < |vs| => Example(vs[k], vs[k]))
  }

  datatype ConstructionError = UnrecognizedActivation(name: string)

  datatype Result<T> = Ok(value: T) | Err(error: ConstructionError)

  /** The number of rows of weight matrix `i`: the size of the layer feeding layer `i`. */
  function FanIn(ls: seq<nat>, i: nat): nat
    requires i < |ls|
  {
    if i == 0 then 0 else ls[i - 1]
  }

  /** The number of columns of weight matrix `i`: the size of layer `i` (0 for the placeholder). */
  function FanOut(ls: seq<nat>, i: nat): nat
    requires i < |ls|
  {
    if i == 0 then 0 else ls[i]
  }

  /** `ws` holds the 0 x 0 placeholder and one `ls[i-1]` x `ls[i]` matrix per later layer. */
  predicate WeightsShaped(ws: seq<Matrix>, ls: seq<nat>) {
    && |ls| > 0 && |ws| == |ls|
    && forall i :: 0 <= i < |ls| ==> Shaped(ws[i], FanIn(ls, i), FanOut(ls, i))
  }

  /** `bs` holds one vector of length `ls[i]` per layer. */
  predicate BiasesShaped(bs: seq<Vector>, ls: seq<nat>) {
    |bs| == |ls| && forall i :: 0 <= i < |ls| ==> |bs[i]| == ls[i]
  }

  /**
   * The shape invariant of a network: positive layer sizes, a coefficient
   * for every layer (more are allowed and never read), and weights and
   * biases whose shapes are fixed by the sizes.
   */
  predicate WellFormed(n: Net) {
    && |n.layerSizes| > 0
    && (forall i :: 0 <= i < |n.layerSizes| ==> n.layerSizes[i] > 0)
    && |n.activationCoeffs| >= |n.layerSizes|
    && WeightsShaped(n.weights, n.layerSizes)
    && BiasesShaped(n.biases, n.layerSizes)
  }

  /** The activation family named in a definition file, if it is one of the three known names. */
  function ParseActivation(name: string): (r: Option<ActivationFunction>)
    ensures r == Some(Sigmoid) <==> name == "sigmoid"
    ensures r == Some(Tanh) <==> name == "tanh"
    ensures r == Some(Identity) <==> name == "id"
    ensures r.None? <==> name != "sigmoid" && name != "tanh" && name != "id"
  {
    if name == "sigmoid" then Some(Sigmoid)
    else if name == "tanh" then Some(Tanh)
    else if name == "id" then Some(Identity)
    else None
  }

  /** One all-zero vector per layer, sized like the layer. */
  function ZeroLayers(ls: seq<nat>): (r: seq<Vector>)
    ensures BiasesShaped(r, ls)
    ensures forall i, k :: 0 <= i < |ls| && 0 <= k < ls[i] ==> r[i][k] == 0.0
  {
    seq(|ls|, i requires 0 <= i < |ls| => ZeroVector(ls[i]))
  }

  /** A zero matrix for each pair of adjacent layers. */
  function AdjacentZeros(ls: seq<nat>): (r: seq<Matrix>)
    ensures |r| == if |ls| == 0 then 0 else |ls| - 1
    ensures forall i {:trigger r[i]} :: 0 <= i < |r| ==> r[i] == ZeroMatrix(ls[i], ls[i + 1])
  {
    if |ls| == 0 then [] else seq(|ls| - 1, i requires 0 <= i < |ls| - 1 => ZeroMatrix(ls[i], ls[i + 1]))
  }

  /**
   * The placeholder followed by one zero matrix per pair of adjacent layers.
   * With no layers at all there is still the placeholder.
   */
  function ZeroWeights(ls: seq<nat>): (r: seq<Matrix>)
    ensures |r| == if |ls| == 0 then 1 else |ls|
    ensures r[0] == ZeroMatrix(0, 0)
    ensures forall i {:trigger r[i]} :: 1 <= i < |ls| ==> r[i] == ZeroMatrix(ls[i - 1], ls[i])
    ensures |ls| > 0 ==> WeightsShaped(r, ls)
  {
    [ZeroMatrix(0, 0)] + AdjacentZeros(ls)
  }

  /**
   * Builds a zero-initialised network from a definition; an activation name
   * other than "sigmoid", "tanh" or "id" is a construction error. A 0.0
   * coefficient is put in front of the given ones so that coefficient `i`
   * belongs to layer `i`.
   */
  function FromDefinition(defn: NetworkDefn): (r: Result<Net>)
    ensures r.Err? <==> defn.activationFn != "sigmoid" && defn.activationFn != "tanh" && defn.activationFn != "id"
    ensures r.Err? ==> r.error == UnrecognizedActivation(defn.activationFn)
    ensures r.Ok? ==> Some(r.value.activationFn) == ParseActivation(defn.activationFn)
    ensures r.Ok? ==> r.value.layerSizes == defn.layers
    ensures r.Ok? ==> r.value.activationCoeffs == [0.0] + defn.activationCoeffs
    ensures r.Ok? && |defn.layers| > 0 ==> WeightsShaped(r.value.weights, defn.layers)
    ensures r.Ok? ==> BiasesShaped(r.value.biases, defn.layers)
    ensures r.Ok? ==> r.value.weights == ZeroWeights(defn.layers) && r.value.biases == ZeroLayers(defn.layers)
  {
    match ParseActivation(defn.activationFn)
    case None => Err(UnrecognizedActivation(defn.activationFn))
    case Some(af) =>
      Ok(Net(defn.layers, [0.0] + defn.activationCoeffs, ZeroWeights(defn.layers), ZeroLayers(defn.layers), af))
  }

  /**
   * A definition with positive layer sizes, at least one coefficient per
   * non-input layer and a known activation name yields a well-formed
   * network. Layer `i` uses definition coefficient `i - 1`; a definition
   * with one coefficient per layer, input layer included, leaves its last
   * coefficient unused.
   */
  lemma FromDefinitionWellFormed(defn: NetworkDefn)
    requires |defn.layers| > 0 && forall i :: 0 <= i < |defn.layers| ==> defn.layers[i] > 0
    requires |defn.activationCoeffs| >= |defn.layers| - 1
    requires ParseActivation(defn.activationFn).Some?
    ensures FromDefinition(defn).Ok? && WellFormed(FromDefinition(defn).value)
  {
  }

  /**
   * A definition that gives every layer a coefficient, the input layer
   * included, builds a well-formed network whose coefficients are 0.0
   * followed by the definition's.
   */
  lemma PerLayerDefinitionWellFormed()
    ensures var defn := NetworkDefn([3, 4, 1], [1.0, 1.0, 1.0], "sigmoid");
      && FromDefinition(defn).Ok?
      && WellFormed(FromDefinition(defn).value)
      && FromDefinition(defn).value.activationCoeffs == [0.0, 1.0, 1.0, 1.0]
  {
    FromDefinitionWellFormed(NetworkDefn([3, 4, 1], [1.0, 1.0, 1.0], "sigmoid"));
  }
}
