# Option portfolio payoff diagrams — a Dafny model

This project models the expiry-payoff core of an option-portfolio analysis tool:

- the instrument value objects;
- the accumulation of a portfolio's payoff over a grid of spot prices.

The instruments are:

- `Option` (call or put);
- `Debt`;
- `Forward`;
- `Bond`.

Each constructor stores its arguments. Only `Option` and `Forward` then validate them, with an ordered chain of checks; a failing check raises `ValueError`. `Debt` and `Bond` check nothing. Each instrument's `payoff(spot_prices)` maps a vector of spot prices element by element to the position's value at expiry.

The repository holds three copies of the same `Option` code, differing only in blank lines:

- `utils.py`;
- `Kyan_Nelson_Portfolio_Analyzer/utils.py`;
- `payoff_diagram.py`.

It also holds two copies of the same `Debt` code. One Dafny model serves every copy, and the table below cites whichever copy is closest to hand.

Modules, one per concept:

- `Text`: the ASCII lower-casing applied to the option type name.
- `Validation`: the `ValueError` raised by each check and its text. It also defines `Result`, a constructed value or the error raised instead.
- `Vectors`: the numpy operations the code uses, over exact reals: element-wise maps, `full_like`, `zeros_like`, in-place `+=` and `linspace`.
- `Options`, `Debts`, `Forwards`, `Bonds`: the instrument classes.
- `Portfolio`: a list of heterogeneous assets with its per-spot-price sum (`SumAt`). It also defines the column sum of a table of payoff vectors.
- `PayoffDiagram`: the script in `payoff_diagram.py`, covering the grid, the four-asset scenario and the loop that fills `payoffs` and `total_payoff`.
- `PayoffPage`: the payoff page in `pages/2_Payoff_Diagram.py`, covering the 21-point grid from 90 to 110, the accumulation loop and the empty-portfolio notice.

The two accumulation loops are modelled as methods. Each allocates a zero array and adds each asset's payoff vector into it in place. Each is proved against `Portfolio.SumAt`, the pointwise sum of the assets' payoffs. `Portfolio.SumAtPermutation` proves that this sum does not depend on the order of the portfolio.

## Model

| member | source | states |
|---|---|---|
| `Text.LowerChar` | utils.py:15 | the folded character is never an upper-case letter; upper-case letters map to their lower-case letter and everything else is kept |
| `Text.Lower` | utils.py:15 | `option_type.lower()` keeps the length and folds each character in place |
| `Text.LowerMatches` | utils.py:15 | for a lower-case word t, `s.lower() == t` exactly when s is t written in any mixture of letter cases |
| `Text.LowerOfLowerCase` | utils.py:25 | "call" and "put" are unchanged by lower-casing, so they are accepted as written |
| `Validation.Message` | utils.py:24-34 | the text raised with each `ValueError`, word for word per failed check |
| `Validation.MessageIdentifiesCheck` | utils.py:24-34 | the five `ValueError` texts are pairwise distinct, so the message identifies the check that failed |
| `Vectors.Map` | utils.py:36-41 | numpy element-wise arithmetic: the output has the input's length and entry i is f applied to entry i |
| `Vectors.Full` | utils.py:48-49 | `np.full_like`: n entries, every one equal to the fill value |
| `Vectors.Zeros` | payoff_diagram.py:91 | `np.zeros_like`: n entries, all zero |
| `Vectors.Max` | utils.py:38 | `np.maximum` of two scalars: at least both arguments and equal to one of them |
| `Vectors.Linspace` | payoff_diagram.py:73 | `np.linspace(start, stop, num)`: num points, the first is start, the last is stop, consecutive points one equal step apart |
| `Vectors.ZerosLike` | payoff_diagram.py:91 | `total_payoff = np.zeros_like(spot_range)`: a fresh array holding `Zeros` of the grid's length |
| `Vectors.AddInto` | payoff_diagram.py:96 | in-place `total += v`: every entry grows by the matching entry of v |
| `Options.NewOption` | utils.py:15-34 | construction fails on the first violated check in the order type, strike ≤ 0, spot ≤ 0, maturity < 0, volatility ≤ 0. A successful build satisfies all five, stores the lower-cased type and keeps every other argument. The defaults are spot 100, maturity 1, rfr 0.12, volatility 0.20 and quantity 1 |
| `Options.TypeNameCaseInsensitive` | Kyan_Nelson_Portfolio_Analyzer/utils.py:15-34 | the type check passes exactly when the name is "call" or "put" in any letter case ('Call', 'PUT'), and the option built is a call exactly when the name spells "call" |
| `Options.PayoffAt` | payoff_diagram.py:43-49 | a call pays `quantity·(s−strike)` above the strike and nothing at or below it; a put pays `quantity·(strike−s)` below the strike and nothing at or above it |
| `Options.Payoff` | utils.py:36-41 | the payoff vector has the spot vector's length, and entry i is the payoff at spot i |
| `Options.PayoffSign` | utils.py:36-41 | with quantity ≥ 0 every payoff entry is ≥ 0; with quantity ≤ 0 every entry is ≤ 0 |
| `Options.CallMinusPut` | Kyan_Nelson_Portfolio_Analyzer/utils.py:36-41 | a call less a put of the same strike and quantity pays `quantity·(s−strike)` at every spot price |
| `Debts.NewDebt` | utils.py:44-46 | `Debt(face_value)` performs no validation and sets `strike` equal to the face value |
| `Debts.Payoff` | utils.py:48-49 | the debt pays its face value at every spot price, with no quantity factor, and the output has the input's length; each entry is the scalar `Debts.PayoffAt` at that spot, which the portfolio sum also uses |
| `Debts.PayoffIgnoresSpots` | Kyan_Nelson_Portfolio_Analyzer/utils.py:48-49 | two spot vectors of equal length give the same debt payoff |
| `Bonds.NewBond` | payoff_diagram.py:51-58 | `Bond(face_value=1000, quantity=1)` performs no validation and keeps both arguments |
| `Bonds.Payoff` | payoff_diagram.py:60-61 | the bond pays `face_value·quantity` at every spot price, and the output has the input's length; each entry is the scalar `Bonds.PayoffAt` at that spot, which the portfolio sum also uses |
| `Forwards.NewForward` | Kyan_Nelson_Portfolio_Analyzer/utils.py:52-63 | construction fails with the strike error exactly when strike ≤ 0; nothing else is checked, and a built forward keeps strike and quantity (default 1) |
| `Forwards.PayoffAt` | Kyan_Nelson_Portfolio_Analyzer/utils.py:65-66 | the payoff is exactly 0 at the strike (no clamping); a long forward pays a positive amount exactly above the strike and a short forward exactly below it |
| `Forwards.Payoff` | Kyan_Nelson_Portfolio_Analyzer/utils.py:65 | the payoff vector has the spot vector's length and is element-wise |
| `Forwards.PayoffAtIsCallMinusPut` | Kyan_Nelson_Portfolio_Analyzer/utils.py:36-66 | at a single spot price, the forward pays a call's payoff less a put's with the same strike and quantity |
| `Forwards.IsCallMinusPut` | Kyan_Nelson_Portfolio_Analyzer/utils.py:36-66 | a forward's payoff vector equals a call's minus a put's with the same strike and quantity, whatever the options' other fields |
| `Forwards.PayoffMonotone` | Kyan_Nelson_Portfolio_Analyzer/utils.py:66 | over ascending spot prices, a forward with quantity ≥ 0 has non-decreasing payoffs and one with quantity ≤ 0 has non-increasing payoffs |
| `Portfolio.Payoff` | pages/2_Payoff_Diagram.py:25 | `asset.payoff(spot_range_array)`, dispatched on the asset's class, has the grid's length |
| `Portfolio.PayoffPointwise` | pages/2_Payoff_Diagram.py:25 | every class's payoff vector is its payoff at each spot price in turn |
| `Portfolio.PayoffTable` | payoff_diagram.py:93-95 | the `payoffs` list holds one payoff vector per asset, in portfolio order |
| `Portfolio.SumAt` | pages/2_Payoff_Diagram.py:24-26 | the portfolio's payoff at one spot price: the sum of its assets' payoffs there, an empty portfolio paying 0; the reference both accumulation loops are proved against |
| `Portfolio.SumAtExtend` | pages/2_Payoff_Diagram.py:24-26 | adding the next asset's payoff vector to the running totals of the assets before it gives the running totals one asset further; this is the loop invariant of both accumulation loops |
| `Portfolio.ColumnSumsOfPayoffs` | payoff_diagram.py:93-96 | every payoff vector has the grid's length, and at every grid point the column sum of the table is the portfolio's payoff |
| `Portfolio.ColumnSumOfPayoffs` | payoff_diagram.py:93-96 | given one payoff vector per asset in portfolio order, the column sum at grid point j is the portfolio's payoff at that spot price |
| `Portfolio.SumAtRemove` | pages/2_Payoff_Diagram.py:24-26 | removing the asset at any position lowers the portfolio's payoff by that asset's payoff |
| `Portfolio.SumAtPermutation` | pages/2_Payoff_Diagram.py:24-26 | any reordering of the portfolio has the same total payoff at every spot price |
| `PayoffDiagram.SpotRange` | payoff_diagram.py:73 | the script's grid is the 11 points 0, 5, …, 50 |
| `PayoffDiagram.AccumulatePayoffs` | payoff_diagram.py:90-96 | after the loop, `payoffs` holds one payoff vector per asset in portfolio order; `total_payoff[j]` equals the sum over assets of `payoffs[i][j]`, which is the portfolio's payoff at grid point j |
| `PayoffDiagram.Scenario` | payoff_diagram.py:81-84 | the script's portfolio in order: Bond(−10) with quantity 1, a put struck at 30 with quantity 1, a call struck at 30 with quantity −1 and a call struck at 20 with quantity −1, the options keeping the constructor defaults; `Script` proves that it is what the appends build |
| `PayoffDiagram.ScenarioPayoffAt` | payoff_diagram.py:81-84 | the scenario portfolio pays `20 − s` up to s = 20 and `40 − 2s` beyond |
| `PayoffDiagram.ScenarioNonIncreasing` | payoff_diagram.py:81-84 | the scenario's payoff never rises as the spot price rises |
| `PayoffDiagram.ScenarioOptionsBuild` | payoff_diagram.py:82-84 | the three option constructions pass validation and build the scenario's options with the default market fields |
| `PayoffDiagram.ScenarioOnGrid` | payoff_diagram.py:81-96 | the scenario's total over the grid is 20, 15, 10, 5, 0, −10, …, −60, and it is non-increasing |
| `PayoffDiagram.Script` | payoff_diagram.py:73-96 | the script builds the grid and then the portfolio by appending Bond(−10), Put 30, short Call 30 and short Call 20. It then accumulates, giving 4 payoff vectors and a total of 20 at 0, 0 at 20 and −60 at 50 |
| `PayoffPage.Grid` | pages/2_Payoff_Diagram.py:14-20 | the page's grid has `num_points = 21` entries, 90, 91, …, 110 |
| `PayoffPage.LinspaceAt` | pages/2_Payoff_Diagram.py:20 | entry j of an evenly spaced grid is `start + j·step` |
| `PayoffPage.AccumulateTotal` | pages/2_Payoff_Diagram.py:23-26 | starting from zeros of the grid's length and adding each asset's payoff in place, the total at each grid point is the portfolio's payoff there |
| `PayoffPage.Render` | pages/2_Payoff_Diagram.py:18-60 | an empty portfolio shows only "No portfolio loaded."; otherwise the chart holds the 21 grid points and the total payoff at each |

## Left out

- Streamlit widgets, session state, plotly figures and pandas frames are presentation only and are not modelled. This covers the application entry points, the styling modules and the input and PnL pages. The page model returns what would be plotted.
- The input page `pages/1_Input.py` constructs `Debt` with `maturity`/`rfr` and `Forward` with `spot`/`maturity`/`rfr`, and it imports `Forward` from a module that does not define it. These calls are UI wiring inconsistent with the classes and are not modelled. The page's portfolio is taken as a parameter holding any of the four instrument classes.
- The portfolio table rows on the input pages are display formatting and are not modelled.
- `simulate_terminal_prices` draws random normal variates and uses floating `exp` and `sqrt`. It is not modelled.
- `intro.py` is a scratch script with no reusable logic and is not modelled.
- The empty `Payoff_Diagram` class (payoff_diagram.py:64-69) only stores its argument and is not modelled.
- Floating point is not modelled: every price is an exact real. Rounding, NaN and infinities are absent. A NaN strike, for example, passes Python's `strike <= 0` check.
- Text.Lower: folds only the ASCII letters A–Z, so it always keeps the length. Python's `str.lower` also folds other Unicode letters, and it turns U+0130 into two characters. The only non-ASCII characters that lower-case to ASCII are U+0130 and U+212A (KELVIN SIGN, to 'k'). Neither yields a letter of "call" or "put", so which names are accepted is unaffected.
- Text.LowerChar: keeps every non-ASCII character, U+212A included, where `str.lower` maps U+212A to 'k'.
- `np.full_like` takes the dtype of the spot vector, so an integer spot array would truncate a debt's or bond's face value. Every grid in the modelled code comes from `np.linspace` (floats), and the model assumes real spot vectors.
- The Python constructors take untyped Python values. A non-string `option_type` raising `AttributeError` is outside the model's types.
- `spot`, `maturity` and `volatility` are stored and validated; `rfr` is only stored. No payoff reads any of them. They are kept in the `Option` datatype only.
