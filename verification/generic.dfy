/**
 * The duck-typed tensor interface through which one fixed-size value is built
 * from another: it reports its column count, row count and size, and answers
 * element queries. `get` is applied to its two arguments in the order the
 * caller passes them (matrices read `get(col, row)`, vectors `get(0, i)`).
 */
module Generic {

  datatype Tensor = Tensor(cols: int, rows: int, size: int, get: (int, int) -> real)
}
