# errs: combining Go errors, modelled in Dafny

The `errs` package combines several Go `error` values into one and renders
the result as a string. It has three concrete error kinds:

- `basicError`: a leaf holding one message.
- `errpair`: exactly two errors.
- `errlist`: an ordered slice of errors.

Five entry points build or use them:

- `New` builds a leaf.
- `Eat` forwards the error of a (value, error) result.
- `Pair` combines two possibly-nil errors.
- `Chain` combines any number of possibly-nil errors and drops the nils.
- Each kind's `Error()` method renders it, joining the parts with `"; "`.

The model has four files:

- `wrappers.dfy`: `Option`, which stands for a possibly-nil `error`. `None` is Go's nil.
- `strings.dfy`: `Join`, which models Go's `strings.Join`.
- `errs.dfy`: the datatype `Err` (`Basic | PairE | List`), the recursive rendering `Render`, and every operation of the package. `Chain` and `errlist.Error` loop in the source, so they are methods here. Each method is proved against a specification function.
- `errs_test.dfy`: the scenarios of the package's tests (`errs_test.go`), proved from the definitions in `Errs`.

Two facts about `Chain` are easy to miss:

- `Chain` never builds a pair. Two surviving errors become a two-element list (errs.go:54). `Errs.PairAndChainOfTwo` shows that this list renders like the pair `Pair` would build.
- A list may hold a single error. For example, `Chain(x, nil)` gives a one-element list, which renders like `x`.

## Model

| member | source | states |
|---|---|---|
| Errs.New | errs.go:9-11 | `New(msg)` is a leaf (`basicError`) that renders as exactly `msg` (errs.go:81-83) |
| Errs.Eat | errs.go:14-16 | `Eat(v, e)` returns `e` unchanged, whatever `v` is |
| Errs.Pair | errs.go:21-29 | the result is nil iff both inputs are nil; if one input is nil, the result is the other input, unwrapped; if neither is nil, the result is a new pair that renders as `first + "; " + second` (errs.go:61-63) |
| Errs.Render | errs.go:61-83 | a leaf renders as exactly its message; an empty list renders as `""`; a one-element list renders like its element. By definition, a pair renders as its two halves around `"; "` and a list as the `"; "`-join of its elements' renderings |
| Errs.Renderings | errs.go:70-73 | one rendering per element, same length, position `i` is the rendering of element `i` |
| Errs.RenderingsAppend | errs.go:70-73 | rendering position by position distributes over concatenation |
| Errs.ListError | errs.go:69-75 | the array filled in the loop and then joined equals the recursive rendering of the list; a one-element list renders like its element |
| Errs.Survivors | errs.go:46-50 | the kept errors are at most as many as the arguments; none are kept iff every argument is nil; `e` is kept iff `Some(e)` is an argument |
| Errs.SurvivorsAppend | errs.go:46-50 | filtering distributes over concatenation, so the order of the non-nil arguments is preserved |
| Errs.Chained | errs.go:32-55 | no arguments give nil; one argument gives that argument itself (nil or not); the result is nil iff every argument is nil; otherwise, with two or more arguments, the result is a list of exactly the non-nil arguments in order, with length from 1 to the argument count |
| Errs.Chain | errs.go:32-55 | the loop that appends each non-nil argument returns exactly what `Chained` describes |
| Errs.ChainRender | errs.go:69-75 | a non-nil chain renders as the `"; "`-join of the renderings of the non-nil arguments, in order; a single survivor renders like itself |
| Errs.ChainAppendRender | errs.go:46-54 | chaining two argument lists that each hold a non-nil error renders as the two chains' renderings joined by `"; "` |
| Errs.PairAndChainOfTwo | errs.go:28 | `Pair(x, y)` and `Chain(x, y)` render alike whenever one of them is non-nil, but for two non-nil errors `Chain` builds a two-element list rather than a pair (errs.go:54) |
| Strings.Join | errs.go:74 | `strings.Join`: no parts give `""`; one part gives itself; otherwise the length is the total of the parts plus one separator between each neighbouring pair, and the result starts with the first part |
| Strings.JoinAppend | errs.go:74 | joining `a + b` (both non-empty) is `Join(a) + sep + Join(b)` |
| ErrsTest.FourLeavesRender | errs_test.go:51-54 | the list of the leaves "one" to "four" renders as `"one; two; three; four"` |

## Left out

- Formatting an arbitrary message with `fmt.Sprintf("%v", ...)` (errs.go:82) is left out. A message is a `string` here, because Go's reflection-based formatting is not part of this model.
- Address identity of the allocated errors is left out. Errors are compared by value. The test's identity check (`e != err`, errs_test.go:47) is therefore stated as value equality.
- Error implementations defined outside the package are not modelled as a separate kind. `Err` covers only the three kinds the package defines.
- The capacity of the slice that `Chain` preallocates (errs.go:43) is left out. It has no observable effect.
- A nil element inside a pair or list is not representable, because `Err` has no nil. The package itself never builds one.
