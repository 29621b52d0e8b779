/** How both Activity classes allocate their network: the layer arrays from the input,
    output and hidden-layer lengths, and the weight rows, either all zero or drawn from a
    generator row by row. */
module Construction {
  import opened Runtime
  import opened Extensions
  import opened Network
  import opened Kernels

  /** The layers of a new network. The hidden-size array first gets one added to every
      element in place (the bias slots), and its new values are the hidden-layer sizes;
      the input layer gets one extra slot for the bias, the output layer none. Every
      layer starts at zero. */
  method NewLayers(inputLength: nat, outputLength: nat, hidden: array<int>) returns (layers: seq<array<real>>)
    requires outputLength >= 1
    requires forall k :: 0 <= k < hidden.Length ==> hidden[k] >= 0
    modifies hidden
    ensures forall k :: 0 <= k < hidden.Length ==> hidden[k] == old(hidden[k]) + 1
    ensures Layered(layers) && fresh(LayerSet(layers))
    ensures |layers| == hidden.Length + 2
    ensures layers[0].Length == inputLength + 1
    ensures forall k :: 0 <= k < hidden.Length ==> layers[k + 1].Length == hidden[k]
    ensures layers[|layers| - 1].Length == outputLength
    ensures forall l, k :: 0 <= l < |layers| && 0 <= k < layers[l].Length ==> layers[l][k] == 0.0
    ensures SizesOf(layers) == [inputLength + 1] + hidden[..] + [outputLength]
  {
    Add(hidden, 1);
    var input := new real[inputLength + 1](_ => 0.0);
    layers := [input];
    for i := 0 to hidden.Length
      invariant forall k :: 0 <= k < hidden.Length ==> hidden[k] == old(hidden[k]) + 1
      invariant |layers| == i + 1 && layers[0].Length == inputLength + 1
      invariant forall k :: 0 <= k < i ==> layers[k + 1].Length == hidden[k]
      invariant forall l :: 0 <= l < |layers| ==> fresh(layers[l]) && layers[l].Length >= 1
      invariant forall l, m :: 0 <= l < m < |layers| ==> layers[l] != layers[m]
      invariant forall l, k :: 0 <= l < |layers| && 0 <= k < layers[l].Length ==> layers[l][k] == 0.0
    {
      var layer := new real[hidden[i]](_ => 0.0);
      layers := layers + [layer];
    }
    var output := new real[outputLength](_ => 0.0);
    layers := layers + [output];
  }

  /** Position of every row of matrix i, for a matrix whose rows are distinct. */
  ghost function MatrixIndex(m: seq<array<real>>, i: nat): (index: map<array<real>, (nat, nat)>)
    requires forall a, b :: 0 <= a < b < |m| ==> m[a] != m[b]
    ensures index.Keys == RowSet(m)
    ensures forall j :: 0 <= j < |m| ==> m[j] in index && index[m[j]] == (i, j)
  {
    map j | 0 <= j < |m| :: m[j] := (i, j)
  }

  /** One matrix drawn from `random`: `rows` new rows of `width` weights each, row j made
      by GetRandomArray from the draws that follow the first j * width. */
  method DrawMatrix(random: Random, rows: nat, width: nat) returns (m: seq<array<real>>)
    requires random.Valid() && width >= 1
    modifies random
    ensures |m| == rows && forall j :: 0 <= j < |m| ==> fresh(m[j])
    ensures forall a, b :: 0 <= a < b < |m| ==> m[a] != m[b]
    ensures forall j :: 0 <= j < rows ==> m[j].Length == width
    ensures forall j :: 0 <= j < rows ==>
      m[j][..] == DrawRow(random.draws, old(random.pos) + j * width, width, -4.0 / width as real, 4.0 / width as real)
    ensures random.pos == old(random.pos) + rows * width
  {
    m := [];
    for j := 0 to rows
      invariant |m| == j && random.pos == old(random.pos) + j * width
      invariant forall k :: 0 <= k < j ==> fresh(m[k]) && m[k].Length == width
      invariant forall k :: 0 <= k < j ==>
        m[k][..] == DrawRow(random.draws, old(random.pos) + k * width, width, -4.0 / width as real, 4.0 / width as real)
      invariant forall a, b :: 0 <= a < b < j ==> m[a] != m[b]
    {
      var row := GetRandomArray(random, width, -4.0 / width as real, 4.0 / width as real);
      m := m + [row];
    }
  }

  /** One matrix of zeros: `rows` new rows of `width` weights each, made by GetFilledArray. */
  method ZeroMatrix(rows: nat, width: nat) returns (m: seq<array<real>>)
    ensures |m| == rows && forall j :: 0 <= j < |m| ==> fresh(m[j])
    ensures forall a, b :: 0 <= a < b < |m| ==> m[a] != m[b]
    ensures forall j :: 0 <= j < rows ==> m[j].Length == width && m[j][..] == seq(width, _ => 0.0)
  {
    m := [];
    for j := 0 to rows
      invariant |m| == j
      invariant forall k :: 0 <= k < j ==> fresh(m[k]) && m[k].Length == width && m[k][..] == seq(width, _ => 0.0)
      invariant forall a, b :: 0 <= a < b < j ==> m[a] != m[b]
    {
      var row := GetFilledArray(width, 0.0);
      m := m + [row];
    }
  }

  /** The first |weights| matrices are in place: one row per neuron of the next layer,
      one weight per neuron of their own, and every row at its position in `rowIndex`. */
  ghost predicate Indexed(neurons: seq<array<real>>, weights: seq<seq<array<real>>>, rowIndex: map<array<real>, (nat, nat)>)
  {
    && |weights| < |neurons|
    && (forall t :: 0 <= t < |weights| ==> |weights[t]| == neurons[t + 1].Length)
    && (forall t, j :: 0 <= t < |weights| && 0 <= j < |weights[t]| ==>
          && weights[t][j].Length == neurons[t].Length
          && weights[t][j] in rowIndex && rowIndex[weights[t][j]] == (t, j))
  }

  /** The rows of the first |weights| matrices hold the values of `w`. */
  ghost predicate RowsHold(weights: seq<seq<array<real>>>, w: Tensor)
    reads Elements(weights)
  {
    && |weights| <= |w|
    && (forall t :: 0 <= t < |weights| ==> |weights[t]| == |w[t]|)
    && (forall t, j :: 0 <= t < |weights| && 0 <= j < |weights[t]| ==> weights[t][j][..] == w[t][j])
  }

  /** A new matrix of distinct rows, none of them already indexed, extends the indexed
      prefix by one. */
  lemma ExtendIndexed(neurons: seq<array<real>>, weights: seq<seq<array<real>>>, rowIndex: map<array<real>, (nat, nat)>,
                      m: seq<array<real>>)
    requires Indexed(neurons, weights, rowIndex) && |weights| < |neurons| - 1
    requires |m| == neurons[|weights| + 1].Length
    requires forall j :: 0 <= j < |m| ==> m[j].Length == neurons[|weights|].Length && m[j] !in rowIndex
    requires forall a, b :: 0 <= a < b < |m| ==> m[a] != m[b]
    ensures Indexed(neurons, weights + [m], rowIndex + MatrixIndex(m, |weights|))
  {
    var index := rowIndex + MatrixIndex(m, |weights|);
    var ws := weights + [m];
    forall t, j | 0 <= t < |ws| && 0 <= j < |ws[t]|
      ensures ws[t][j] in index && index[ws[t][j]] == (t, j)
    {
      if t < |weights| {
        assert ws[t][j] == weights[t][j] && weights[t][j] in rowIndex;
        assert weights[t][j] !in RowSet(m);
      }
    }
  }

  /** A new matrix whose rows hold the next matrix of `w` extends the prefix that holds. */
  lemma ExtendRowsHold(weights: seq<seq<array<real>>>, w: Tensor, m: seq<array<real>>)
    requires RowsHold(weights, w) && |weights| < |w| && |m| == |w[|weights|]|
    requires forall j :: 0 <= j < |m| ==> m[j][..] == w[|weights|][j]
    ensures RowsHold(weights + [m], w)
  {
    var ws := weights + [m];
    forall t, j | 0 <= t < |ws| && 0 <= j < |ws[t]|
      ensures ws[t][j][..] == w[t][j]
    {
      if t < |weights| {
        assert ws[t] == weights[t];
      }
    }
  }

  /** `w` is the tensor drawn from position `start` of `draws` for layers of the given
      sizes: row j of matrix t made from the draws that follow the first j * n of those
      where matrix t starts, n the size of layer t. */
  ghost predicate DrawnFrom(w: Tensor, draws: nat -> real, start: nat, sizes: seq<nat>)
  {
    && |sizes| >= 1 && |w| == |sizes| - 1
    && (forall t :: 0 <= t < |w| ==> sizes[t] >= 1 && |w[t]| == sizes[t + 1])
    && (forall t, j :: 0 <= t < |w| && 0 <= j < |w[t]| ==>
          w[t][j] == DrawRow(draws, start + Offset(sizes, t) + j * sizes[t], sizes[t],
                             -4.0 / sizes[t] as real, 4.0 / sizes[t] as real))
  }

  /** DrawTensor is the tensor drawn from `start`. */
  lemma DrawTensorDrawn(draws: nat -> real, start: nat, sizes: seq<nat>)
    requires |sizes| >= 2 && forall l :: 0 <= l < |sizes| ==> sizes[l] >= 1
    ensures DrawnFrom(DrawTensor(draws, start, sizes), draws, start, sizes)
  {
  }

  /** The rows of matrix i of a drawn tensor, from the position where matrix i starts;
      the next matrix starts after all of them. */
  lemma DrawnRows(w: Tensor, draws: nat -> real, start: nat, sizes: seq<nat>, i: nat, pos: nat)
    requires DrawnFrom(w, draws, start, sizes) && i < |w|
    requires pos == start + Offset(sizes, i)
    ensures |w[i]| == sizes[i + 1]
    ensures forall j :: 0 <= j < sizes[i + 1] ==>
      w[i][j] == DrawRow(draws, pos + j * sizes[i], sizes[i], -4.0 / sizes[i] as real, 4.0 / sizes[i] as real)
    ensures pos + sizes[i + 1] * sizes[i] == start + Offset(sizes, i + 1)
  {
  }

  /** The first |weights| matrices are in place, indexed and distinct from the layers. */
  ghost predicate Placed(neurons: seq<array<real>>, weights: seq<seq<array<real>>>, rowIndex: map<array<real>, (nat, nat)>)
  {
    && Indexed(neurons, weights, rowIndex)
    && (forall l :: 0 <= l < |neurons| ==> neurons[l] !in rowIndex)
  }

  /** Appending a matrix of new distinct rows holding the next matrix of `w` keeps the
      construction in place. */
  lemma ExtendPlacedRows(neurons: seq<array<real>>, weights: seq<seq<array<real>>>, rowIndex: map<array<real>, (nat, nat)>,
                       w: Tensor, m: seq<array<real>>)
    requires Placed(neurons, weights, rowIndex) && RowsHold(weights, w)
    requires |weights| < |neurons| - 1 && |weights| < |w|
    requires |m| == neurons[|weights| + 1].Length == |w[|weights|]|
    requires forall j :: 0 <= j < |m| ==> m[j].Length == neurons[|weights|].Length && m[j] !in rowIndex
    requires forall j, l :: 0 <= j < |m| && 0 <= l < |neurons| ==> m[j] != neurons[l]
    requires forall a, b :: 0 <= a < b < |m| ==> m[a] != m[b]
    requires forall j :: 0 <= j < |m| ==> m[j][..] == w[|weights|][j]
    ensures Placed(neurons, weights + [m], rowIndex + MatrixIndex(m, |weights|)) && RowsHold(weights + [m], w)
  {
    ExtendIndexed(neurons, weights, rowIndex, m);
    ExtendRowsHold(weights, w, m);
  }

  /** Once every matrix is in place, the network is wired and its rows hold `w`. */
  lemma Built(neurons: seq<array<real>>, weights: seq<seq<array<real>>>, rowIndex: map<array<real>, (nat, nat)>, w: Tensor)
    requires Layered(neurons) && Placed(neurons, weights, rowIndex) && RowsHold(weights, w)
    requires |weights| == |neurons| - 1 == |w|
    ensures Wired(neurons, weights, rowIndex) && Mirrors(weights, w)
  {
  }

  /** Every row of a wired network has its position in `rowIndex`. */
  lemma IndexedElements(neurons: seq<array<real>>, weights: seq<seq<array<real>>>, rowIndex: map<array<real>, (nat, nat)>)
    requires Wired(neurons, weights, rowIndex)
    ensures Elements(weights) <= rowIndex.Keys
  {
  }

  /** Draws matrix |weights| of the tensor `target` from `random` and appends it. */
  method DrawNextMatrix(neurons: seq<array<real>>, ghost sizes: seq<nat>, random: Random, weights: seq<seq<array<real>>>,
                        ghost rowIndex: map<array<real>, (nat, nat)>, ghost target: Tensor)
    returns (weights': seq<seq<array<real>>>, ghost rowIndex': map<array<real>, (nat, nat)>)
    requires sizes == SizesOf(neurons) && random.Valid()
    requires |weights| < |neurons| - 1 && |weights| < |target| && sizes[|weights|] >= 1
    requires Placed(neurons, weights, rowIndex) && RowsHold(weights, target)
    requires |target[|weights|]| == sizes[|weights| + 1]
    requires forall j :: 0 <= j < sizes[|weights| + 1] ==>
      target[|weights|][j] ==
      DrawRow(random.draws, random.pos + j * sizes[|weights|], sizes[|weights|],
              -4.0 / sizes[|weights|] as real, 4.0 / sizes[|weights|] as real)
    modifies random
    ensures |weights'| == |weights| + 1 && forall t :: 0 <= t < |weights| ==> weights'[t] == weights[t]
    ensures Placed(neurons, weights', rowIndex') && RowsHold(weights', target)
    ensures random.pos == old(random.pos) + sizes[|weights| + 1] * sizes[|weights|]
    ensures forall a :: a in rowIndex' ==> a in rowIndex || fresh(a)
  {
    var i := |weights|;
    var m := DrawMatrix(random, neurons[i + 1].Length, neurons[i].Length);
    ExtendPlacedRows(neurons, weights, rowIndex, target, m);
    rowIndex' := rowIndex + MatrixIndex(m, i);
    weights' := weights + [m];
  }

  /** The weight rows of a network drawn from `random`: matrix by matrix and row by row,
      each row of matrix t filled by GetRandomArray from [-4/n, 4/n), n the size of layer
      t. No row is shared with another row or a layer, and the generator has advanced by
      one draw per weight. */
  method DrawWeights(neurons: seq<array<real>>, random: Random) returns (weights: seq<seq<array<real>>>, ghost rowIndex: map<array<real>, (nat, nat)>)
    requires Layered(neurons) && random.Valid()
    modifies random
    ensures Sound(neurons, weights, rowIndex, DrawTensor(random.draws, old(random.pos), SizesOf(neurons)))
    ensures fresh(Elements(weights))
  {
    ghost var target := DrawTensor(random.draws, random.pos, SizesOf(neurons));
    DrawTensorDrawn(random.draws, random.pos, SizesOf(neurons));
    weights, rowIndex := FillDrawn(neurons, random, random.pos, SizesOf(neurons), target);
    Built(neurons, weights, rowIndex, target);
    IndexedElements(neurons, weights, rowIndex);
    WiredShaped(neurons, weights, rowIndex, target);
  }

  /** The loop of DrawWeights, towards a tensor `target` drawn from `start`. */
  method FillDrawn(neurons: seq<array<real>>, random: Random, ghost start: nat, ghost sizes: seq<nat>, ghost target: Tensor)
    returns (weights: seq<seq<array<real>>>, ghost rowIndex: map<array<real>, (nat, nat)>)
    requires random.Valid() && sizes == SizesOf(neurons)
    requires DrawnFrom(target, random.draws, start, sizes) && random.pos == start
    modifies random
    ensures |weights| == |neurons| - 1 && Placed(neurons, weights, rowIndex) && RowsHold(weights, target)
    ensures random.pos == start + Offset(sizes, |neurons| - 1)
    ensures forall a :: a in rowIndex ==> fresh(a)
  {
    weights := [];
    rowIndex := map[];
    for i := 0 to |neurons| - 1
      invariant |weights| == i && Placed(neurons, weights, rowIndex) && RowsHold(weights, target)
      invariant random.pos == start + Offset(sizes, i)
      invariant forall a :: a in rowIndex ==> fresh(a)
    {
      DrawnRows(target, random.draws, start, sizes, i, random.pos);
      weights, rowIndex := DrawNextMatrix(neurons, sizes, random, weights, rowIndex, target);
    }
  }

  /** Makes matrix |weights| of zeros and appends it. */
  method ZeroNextMatrix(neurons: seq<array<real>>, weights: seq<seq<array<real>>>,
                        ghost rowIndex: map<array<real>, (nat, nat)>, ghost target: Tensor)
    returns (weights': seq<seq<array<real>>>, ghost rowIndex': map<array<real>, (nat, nat)>)
    requires |weights| < |neurons| - 1 && target == ZeroTensor(SizesOf(neurons))
    requires Placed(neurons, weights, rowIndex) && RowsHold(weights, target)
    ensures |weights'| == |weights| + 1 && forall t :: 0 <= t < |weights| ==> weights'[t] == weights[t]
    ensures Placed(neurons, weights', rowIndex') && RowsHold(weights', target)
    ensures forall a :: a in rowIndex' ==> a in rowIndex || fresh(a)
  {
    var i := |weights|;
    var m := ZeroMatrix(neurons[i + 1].Length, neurons[i].Length);
    assert forall j :: 0 <= j < |m| ==> m[j][..] == target[i][j];
    ExtendPlacedRows(neurons, weights, rowIndex, target, m);
    rowIndex' := rowIndex + MatrixIndex(m, i);
    weights' := weights + [m];
  }

  /** The weight rows of a network with every weight zero, made by GetFilledArray. */
  method ZeroWeights(neurons: seq<array<real>>) returns (weights: seq<seq<array<real>>>, ghost rowIndex: map<array<real>, (nat, nat)>)
    requires Layered(neurons)
    ensures Sound(neurons, weights, rowIndex, ZeroTensor(SizesOf(neurons)))
    ensures fresh(Elements(weights))
  {
    ghost var target := ZeroTensor(SizesOf(neurons));
    weights := [];
    rowIndex := map[];
    for i := 0 to |neurons| - 1
      invariant |weights| == i && Placed(neurons, weights, rowIndex) && RowsHold(weights, target)
      invariant forall a :: a in rowIndex ==> fresh(a)
    {
      weights, rowIndex := ZeroNextMatrix(neurons, weights, rowIndex, target);
    }
    Built(neurons, weights, rowIndex, target);
    IndexedElements(neurons, weights, rowIndex);
    WiredShaped(neurons, weights, rowIndex, target);
  }
}
