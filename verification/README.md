# Verified model of the restaurant back end

A Dafny model of the state-bearing parts of a multi-tenant restaurant system, and proofs about
them. `dafny verify dfyconfig.toml` checks everything.

| file | what it models |
|---|---|
| `Identifiers`, `Wrappers`, `Sequences`, `Texts`, `Decimals` | ids as a total order, an optional value, sequences taken from the end, white space and trimming, rounding of stored decimals |
| `Inventory` | balances, the append-only ledger, debits, credits and what conserves them |
| `Recipes` | explosion of a sale's items into needs per ingredient |
| `Entities` | the tracked entities `Insumo`, `Venda`, `FechamentoCaixa` |
| `UseCases` | sale, write-off, goods entry, registration, opening and closing, each run alone against the database |
| `StockProtocol` | the same stock requests as transactions that take row locks one at a time, interleaved |
| `CashSessions` | sessions and sales over serial runs |
| `SessionProtocol` | openings and closings interleaved between their read and their write |
| `RefreshTokens` | token families under login, refresh and logout |
| `RateLimiter` | the sliding-window script against a full log |
| `DistributedLock` | the token-guarded lock shared by C# and Python |
| `SseStream`, `SseFields` | the client's incremental parser, and what it makes of a text, said without its steps |
| `SseFraming` | the server's framing, read back through the parser |
| `SseDelivery` | which sequences of events arrive whole, and what becomes of the others |
| `SseWriter` | the server's tasks writing to one response under a semaphore, as the client sees it |
| `SseReconnect` | the client's connection, timers and watchdog |
| `Planning` | production capacity and the shopping list |
| `DemandSeries` | the history and the fourteen-day series sent when a session closes |

Classes carry the fields the source updates; each method is proved equal to a function of the old
state, and the invariants and whole-run theorems are proved about those functions. What each of
these functions computes is stated a second time without it: field by field in the method's
contract, or by lemmas that give its value on one element and on a longer list, or by theorems
over the events of a run.

## Reading guide

- A quantity of stock is a `real` in units of 0.0001; what a `numeric(18,4)` column keeps is an
  `int` of the same unit. Money is in cents. Times are in milliseconds.
- The database refuses what the application lets through, and the use cases succeed exactly when
  it does not: a need or an item quantity that is positive but rounds to 0.0000
  (`CK_Movimentacao_Quantidade_Positiva`, `CK_ItensVenda_Quantidade_Positiva`), a payment form
  longer than its column, an amount or a balance with more digits than its column. Then the whole
  sale, write-off or entry rolls back.
- `StockProtocol` interleaves requests whose effect, run alone, is `Perform`. Its cases are the
  operations of `Inventory` that the methods of `UseCases` are proved to carry out.
- Balance and ledger are rounded separately. They drift apart by one unit exactly when the amount
  of an exit ties at the fifth decimal, always in the same direction.
- A second presentation of a consumed refresh token within two minutes revokes the family. The
  comment in the source says the two minutes absorb network retries; the code treats a retry as a
  theft. The model follows the code.
- The random suffix of a limiter member is an input. Two requests of the same millisecond that draw
  the same suffix count once; the limit holds exactly when no request was admitted because of that.
- The comment on the heartbeat watchdog says it aborts and reconnects; the branch that handles the
  abort returns without scheduling anything. The model follows the code.
- A forecast is served by whole units: a fractional one can be reported at risk while there is
  nothing to buy. The exact condition is proved.
- The controller's capacity counts a missing ingredient as zero, the use case skips it.

## Assumptions

- PostgreSQL: a row lock is held to the end of its transaction; `SELECT ... ORDER BY "Id" ASC FOR
  UPDATE` takes its locks in that order and returns the latest committed rows; a commit is atomic;
  `numeric` columns round ties away from zero, and a value that does not fit its column or violates
  a CHECK or a unique index refuses the save. The order of ids is the database's.
- Guids, tokens and lock tokens are fresh; distinct tokens have distinct hashes.
- Redis commands and scripts are atomic; API and Redis read one clock that does not go back. A key
  is absent once its time to live has passed.
- C# and Python build the same key string for the same lock: both format the tenant id in lower
  case with hyphens, and trim the resource key alike.
- .NET decimals do not overflow, and a session has fewer than 2^31 sales. A decimal quotient that
  is a whole number is exact, and any other is off by at most 10^-28 of itself, or of one when it is
  smaller. A `Dictionary` that nothing is removed from is enumerated in insertion order.
- Timestamps come back from the database in UTC.

## Model

| member | source | states |
|---|---|---|
| `Decimals.RoundAway` | src/RestauranteInteligente.Domain/Entities/ItemVenda.cs:50 | the whole number nearest to x, a tie going away from zero on either side of it |
| `Decimals.RoundedDebit` | src/RestauranteInteligente.Infrastructure/Persistence/Configurations/InsumoConfiguration.cs:26-28 | rounding the new balance and rounding the amount taken agree, except that an exact tie leaves one unit more in the balance; the balance never goes below zero |
| `Decimals.RoundedCredit` | src/RestauranteInteligente.Infrastructure/Persistence/Configurations/InsumoConfiguration.cs:26-28 | rounding the new balance after a credit is the old balance plus the rounded amount, with no exception |
| `Inventory.NeedsIgnoreOrder` | src/RestauranteInteligente.Application/Estoque/Services/BaixaEstoqueService.cs:52-60 | the needs per ingredient depend only on the multiset of lines, not on their order |
| `Inventory.TotalOne` | src/RestauranteInteligente.Application/Estoque/Services/BaixaEstoqueService.cs:52-58 | one line counts for its own ingredient with its whole amount, and for no other |
| `Inventory.Ascending` | src/RestauranteInteligente.Infrastructure/Persistence/Repositories/InsumoRepository.cs:42-43 | the ids of a set, each once, in strictly ascending order |
| `Inventory.CanDebitIff` | src/RestauranteInteligente.Infrastructure/Persistence/Scripts/01_init_schema_rls.sql:201 | with balances that fit their column, a debit is accepted exactly when every need is of a known ingredient, at most its balance, and does not round to nothing |
| `Inventory.DebitIs` | src/RestauranteInteligente.Application/Vendas/UseCases/RegistrarVendaUseCase.cs:178-213 | after a debit each needed ingredient holds its balance less the need, rounded, no other balance changes, and the ledger has one more exit of the whole need per ingredient, in ascending order, after the rows it had |
| `Inventory.CanCreditIff` | src/RestauranteInteligente.Api/Controllers/EstoqueController.cs:179-213 | with a balance that fits its column, an entry is accepted exactly when the ingredient exists, the amount does not round to nothing, and the new balance fits |
| `Inventory.CreditIs` | src/RestauranteInteligente.Api/Controllers/EstoqueController.cs:199-214 | an entry raises the balance of its ingredient by the rounded amount, changes no other, and adds exactly its row |
| `Inventory.RegisterIs` | src/RestauranteInteligente.Api/Controllers/EstoqueController.cs:120-145 | a registration adds its ingredient with the rounded load and one entry, or with zero and none |
| `Inventory.DebitConserves` | src/RestauranteInteligente.Application/Vendas/UseCases/RegistrarVendaUseCase.cs:178-213 | a debit that is possible keeps every balance within its column and equal to its ledger plus one unit per tied exit, and every ledger row positive and naming a known ingredient |
| `Inventory.CreditConserves` | src/RestauranteInteligente.Api/Controllers/EstoqueController.cs:189-214 | a goods entry keeps the same invariant; it never adds to the gap between balance and ledger |
| `Inventory.RegisterConserves` | src/RestauranteInteligente.Api/Controllers/EstoqueController.cs:120-145 | a new ingredient, with or without an initial load, keeps the same invariant |
| `Inventory.DriftBounded` | src/RestauranteInteligente.Infrastructure/Persistence/Configurations/MovimentacaoEstoqueConfiguration.cs:36-38 | the number of tied exits lies between zero and the number of exits, and is zero exactly when no exit ties at the fifth decimal |
| `Inventory.ConservedDrift` | src/RestauranteInteligente.Infrastructure/Persistence/Configurations/InsumoConfiguration.cs:26-28 | 0 <= balance - ledger <= 0.0001 per exit, and balance equals ledger exactly when no exit of the ingredient tied |
| `Inventory.WholeAmountsBalance` | src/RestauranteInteligente.Infrastructure/Persistence/Configurations/MovimentacaoEstoqueConfiguration.cs:36-38 | with amounts of at most four decimals every balance equals its entries minus its exits |
| `Inventory.ExitRowsMove` | src/RestauranteInteligente.Application/Vendas/UseCases/RegistrarVendaUseCase.cs:190-202 | the exit rows of a debit lower the ledger balance of each needed ingredient by its rounded need, and of no other |
| `Recipes.AcumularFicha` | src/RestauranteInteligente.Application/Vendas/UseCases/RegistrarVendaUseCase.cs:98-110 | adding one recipe to the dictionary gives the needs of all lines so far followed by those of the recipe, each of them the units sold times its amount |
| `Recipes.ConsumoAt` | src/RestauranteInteligente.Application/Vendas/UseCases/RegistrarVendaUseCase.cs:99-101 | line by line, what a recipe asks for is the units sold times the amount of the line |
| `Recipes.ExplodirFichas` | src/RestauranteInteligente.Application/Vendas/UseCases/RegistrarVendaUseCase.cs:90-111 | refuses exactly when some quantity is not positive; otherwise the dictionary holds, for each ingredient, the needs of every item and recipe line |
| `Recipes.ExplosaoTotal` | src/RestauranteInteligente.Application/Vendas/UseCases/RegistrarVendaUseCase.cs:93-111 | what a sale asks of an ingredient is the sum, over its items and their recipe lines of that ingredient, of units times amount |
| `Recipes.DemandScales` | src/RestauranteInteligente.Application/Vendas/UseCases/RegistrarVendaUseCase.cs:101 | which for one item is the units sold times what its recipe takes of the ingredient in all |
| `Recipes.ExplosaoIds` | src/RestauranteInteligente.Application/Vendas/UseCases/RegistrarVendaUseCase.cs:102-109 | an ingredient is in the dictionary exactly when the recipe of some product sold has a line of it |
| `Recipes.Agrupar` | src/RestauranteInteligente.Application/Estoque/Services/BaixaEstoqueService.cs:52-58 | grouping and summing the write-off lines gives each ingredient its total |
| `Recipes.NeedsPositive` | src/RestauranteInteligente.Application/Vendas/UseCases/RegistrarVendaUseCase.cs:95-101 | positive quantities and recipes give every ingredient a positive need |
| `Recipes.ItemOrderIgnored` | src/RestauranteInteligente.Application/Vendas/UseCases/RegistrarVendaUseCase.cs:93-111 | reordering the items of a sale only reorders the exploded lines |
| `Recipes.SaleIsWriteOff` | src/RestauranteInteligente.Application/Estoque/Services/BaixaEstoqueService.cs:52-58 | a sale asks of each ingredient what a write-off of its exploded lines asks, whatever the order of items and of lines |
| `Entities.Insumo.DebitarEstoque` | src/RestauranteInteligente.Domain/Entities/Insumo.cs:46-55 | succeeds exactly for a positive amount not above the balance, which it lowers by that amount; a refusal changes nothing |
| `Entities.Insumo.CreditarEstoque` | src/RestauranteInteligente.Domain/Entities/Insumo.cs:57-63 | succeeds exactly for a positive amount, which it adds; a refusal changes nothing |
| `Entities.Venda.AdicionarItem` | src/RestauranteInteligente.Domain/Entities/Venda.cs:47-65 | a positive quantity is appended and the running total stays the sum of the rounded subtotals; any other is refused and changes nothing |
| `Entities.FechamentoCaixa.RegistrarVenda` | src/RestauranteInteligente.Domain/Entities/FechamentoCaixa.cs:42-52 | on an open session and a non-negative amount adds the amount and one to the count; otherwise refuses and changes nothing |
| `Entities.FechamentoCaixa.Encerrar` | src/RestauranteInteligente.Domain/Entities/FechamentoCaixa.cs:54-61 | closes an open session and changes nothing else; a closed one is refused |
| `UseCases.Database.ObterPorIdsParaAtualizacao` | src/RestauranteInteligente.Infrastructure/Persistence/Repositories/InsumoRepository.cs:37-51 | one new tracked object for each listed id that exists, holding that row's balance and minimum; missing ids are skipped |
| `UseCases.Database.SaveChanges` | src/RestauranteInteligente.Infrastructure/Persistence/AppDbContext.cs:86-123 | refused, with nothing stored, exactly when some ledger row is changed or deleted, or some ledger row, balance, minimum, sale, item or session total does not fit its column or its CHECK once rounded; otherwise appends the rows and stores every tracked balance rounded |
| `UseCases.SaveDecides` | src/RestauranteInteligente.Infrastructure/Persistence/Scripts/01_init_schema_rls.sql:201 | once every need is on stock, rows and balances are accepted exactly when every need leaves, after rounding, a ledger row and a balance that the columns and CHECKs accept |
| `Inventory.StoredBalanceCovers` | src/RestauranteInteligente.Infrastructure/Persistence/Scripts/01_init_schema_rls.sql:78 | from a balance that fits its column a debit on stock is refused by the database exactly when it rounds to nothing |
| `UseCases.DebitRefusedIff` | src/RestauranteInteligente.Infrastructure/Persistence/Scripts/01_init_schema_rls.sql:201 | a debit whose amounts are positive and on stock is refused exactly when some need rounds to nothing |
| `UseCases.TinyNeedRefused` | src/RestauranteInteligente.Infrastructure/Persistence/Scripts/01_init_schema_rls.sql:201 | it happens: 0.4 of a product whose recipe takes 0.0001 passes every check of the application and is refused |
| `UseCases.TinyQuantityRefused` | src/RestauranteInteligente.Infrastructure/Persistence/Scripts/01_init_schema_rls.sql:175 | so is 0.00004 of a product without a recipe, by the CHECK on the item |
| `Texts.Trimmed` | src/RestauranteInteligente.Domain/Entities/Venda.cs:40 | what is left begins and ends with a visible character, and is empty exactly for a text of white space |
| `Texts.TrimmedMiddle` | src/RestauranteInteligente.Domain/Entities/Venda.cs:40 | only white space is cut off, and only at the two ends |
| `UseCases.SavedDebit` | src/RestauranteInteligente.Application/Vendas/UseCases/RegistrarVendaUseCase.cs:178-213 | storing what is left in memory of every needed ingredient, and the added rows, is the debit of the needs |
| `UseCases.Database.RegistrarEntrada` | src/RestauranteInteligente.Api/Controllers/EstoqueController.cs:172-214 | succeeds exactly when the ingredient exists, the amount is positive and does not round to nothing, and amount and new balance fit their columns; the balance of that ingredient is then higher by the rounded amount, every other is as it was, and the ledger has one more row, the entry; otherwise nothing changes |
| `UseCases.Database.CadastrarInsumo` | src/RestauranteInteligente.Api/Controllers/EstoqueController.cs:110-145 | refuses a negative minimum and values that do not fit their columns, and a load that rounds to nothing; otherwise inserts the ingredient with its rounded minimum and its initial load and one entry, or with a zero balance and no entry when there is no load |
| `UseCases.Database.ExecutarBaixa` | src/RestauranteInteligente.Application/Estoque/Services/BaixaEstoqueService.cs:37-127 | succeeds exactly when the list is not empty and every ingredient exists, is needed in a positive amount, has the balance, and leaves a positive ledger row; its effect is then the debit of the summed needs, and otherwise nothing changes |
| `UseCases.BaixarComVerificacao` | src/RestauranteInteligente.Application/Estoque/Services/BaixaEstoqueService.cs:80-110 | the check-and-debit loop gets to the end exactly when every need is positive and on stock, leaving each balance lower by its need and one exit row per ingredient in ascending order |
| `UseCases.BaixarUm` | src/RestauranteInteligente.Application/Estoque/Services/BaixaEstoqueService.cs:86-94 | a short balance is reported as such; otherwise a positive amount leaves the balance lower by it and touches no other ingredient |
| `UseCases.Database.RegistrarVenda` | src/RestauranteInteligente.Application/Vendas/UseCases/RegistrarVendaUseCase.cs:56-213 | a sale succeeds exactly when it has items, a payment form that is not blank, an open session, known active products, positive quantities, every summed need covered, and the database accepts its rows: a trimmed payment form of at most fifty characters, no item quantity that rounds to nothing, and amounts that fit. Each needed balance is then lower by the need, rounded, with one exit row per ingredient, and the sale and its total are added to the tenant's open session and to nothing else. Any failure leaves stock, ledger, sales and sessions as they were, and with positive recipes no debit is ever refused after the checks. The ingredients left at or below their stored minimum are reported, each once |
| `UseCases.Database.ValidarVenda` | src/RestauranteInteligente.Application/Vendas/UseCases/RegistrarVendaUseCase.cs:56-86 | the checks before any computation pass exactly for a sellable order, a payment form of white space alone being refused; a refusal names the first check that fails |
| `UseCases.Database.TravarEVerificar` | src/RestauranteInteligente.Application/Vendas/UseCases/RegistrarVendaUseCase.cs:127-154 | passes exactly when every row exists and every balance covers its need, before any debit |
| `UseCases.Database.VenderEmTransacao` | src/RestauranteInteligente.Application/Vendas/UseCases/RegistrarVendaUseCase.cs:121-213 | the transaction of a sale commits the whole debit, the sale and the session, or none of it; it commits exactly when the needs are covered and the database accepts the rows |
| `UseCases.Database.DebitarEConfirmar` | src/RestauranteInteligente.Application/Vendas/UseCases/RegistrarVendaUseCase.cs:178-213 | with balances checked, commits exactly when every need is positive and leaves a storable ledger row, and the sale, its items and the session total are storable |
| `UseCases.VerificarSaldo` | src/RestauranteInteligente.Application/Vendas/UseCases/RegistrarVendaUseCase.cs:143-154 | passes exactly when no need exceeds its balance |
| `UseCases.DebitarDemandas` | src/RestauranteInteligente.Application/Vendas/UseCases/RegistrarVendaUseCase.cs:178-203 | goes through exactly when every need is positive, leaving each balance lower by its need, one exit row per ingredient in ascending order, and the list of ingredients at or below their minimum |
| `UseCases.MontarVenda` | src/RestauranteInteligente.Application/Vendas/UseCases/RegistrarVendaUseCase.cs:161-176 | one item per line, in order, at the product's current price, under the trimmed payment form, with the running total equal to the sum of the rounded subtotals |
| `UseCases.SaleFitsIff` | src/RestauranteInteligente.Infrastructure/Persistence/Scripts/01_init_schema_rls.sql:142-176 | a sale is storable exactly when its payment form has at most fifty characters and no null character, no item quantity rounds to nothing, and every amount fits its column and is not negative |
| `UseCases.CriticosAre` | src/RestauranteInteligente.Application/Vendas/UseCases/RegistrarVendaUseCase.cs:185-188 | the reported ingredients are those whose balance less the need is at most the stored minimum |
| `CashSessions.SubtotalIs` | src/RestauranteInteligente.Domain/Entities/ItemVenda.cs:50 | the subtotal of a line is the whole number of cents nearest to quantity times price, half a cent going up |
| `UseCases.Database.LancarNoCaixa` | src/RestauranteInteligente.Application/Vendas/UseCases/RegistrarVendaUseCase.cs:205-209 | the sale joins the open session it was assembled for: the count grows by one and the total by the sale's |
| `UseCases.Database.AbrirCaixa` | src/RestauranteInteligente.Application/Caixa/UseCases/AbrirCaixaUseCase.cs:41-63 | returns the tenant's open session if there is one and changes nothing; otherwise adds and returns an empty open one |
| `UseCases.Database.FecharCaixa` | src/RestauranteInteligente.Application/Caixa/UseCases/FecharCaixaUseCase.cs:61-71 | fails exactly when the tenant has no open session, changing nothing; otherwise that session is no longer open, its total and count are as they were, no other session and no sale changes, and the tenant has no open session left |
| `StockProtocol.LocalIsGlobal` | src/RestauranteInteligente.Application/Estoque/Services/BaixaEstoqueService.cs:78-114 | what a transaction computes from the rows it locked, written back, is what its request does to the whole tables |
| `StockProtocol.CommitIsSerial` | src/RestauranteInteligente.Application/Estoque/Services/BaixaEstoqueService.cs:65-114 | in every interleaving a commit holds every row it changes and has the effect of its request run alone on the tables it meets |
| `StockProtocol.RollbackIsDeserved` | src/RestauranteInteligente.Application/Estoque/Services/BaixaEstoqueService.cs:86-91 | a transaction that found all its rows rolls back on its own only when its request, run alone at that moment, would be refused |
| `StockProtocol.CommittedCredit` | src/RestauranteInteligente.Api/Controllers/EstoqueController.cs:189-214 | in every interleaving a committed entry raises the balance of its ingredient by the rounded amount, changes no other, and adds its row |
| `StockProtocol.CommittedDebit` | src/RestauranteInteligente.Application/Estoque/Services/BaixaEstoqueService.cs:78-114 | a committed sale or write-off lowers each needed balance by its need, rounded, changes no other, and adds one exit row per ingredient |
| `StockProtocol.CommittedRegister` | src/RestauranteInteligente.Api/Controllers/EstoqueController.cs:120-145 | a committed registration adds its ingredient with its load and one entry, or with zero and none |
| `StockProtocol.LockTakes` | src/RestauranteInteligente.Infrastructure/Persistence/Repositories/InsumoRepository.cs:42-50 | a transaction that wants a row that exists takes it and reads its balance; a row that does not exist is skipped, and nothing else changes |
| `StockProtocol.CommitsIff` | src/RestauranteInteligente.Application/Estoque/Services/BaixaEstoqueService.cs:65-114 | a transaction that has walked its list of rows known from the start holds them all, and its next step commits exactly when its request run alone at that moment would be accepted |
| `StockProtocol.LogIsCommitted` | src/RestauranteInteligente.Application/Vendas/UseCases/RegistrarVendaUseCase.cs:212-213 | in every state of every interleaving the commit log holds the request of every committed transaction, once for each, and nothing else |
| `StockProtocol.StepKeepsInv` | src/RestauranteInteligente.Infrastructure/Persistence/Repositories/InsumoRepository.cs:45-50 | every step of every transaction keeps row locks exclusive, and everything read under a lock true |
| `StockProtocol.Serializable` | src/RestauranteInteligente.Application/Vendas/UseCases/RegistrarVendaUseCase.cs:120-213 | in every run the tables are the committed requests replayed one after another in commit order, each acceptable when its turn came |
| `StockProtocol.EveryStateConserved` | src/RestauranteInteligente.Application/Vendas/UseCases/RegistrarVendaUseCase.cs:178-213 | in every state of every interleaving each balance fits its column, is non-negative and equals its ledger plus one unit per tied exit |
| `StockProtocol.EveryBalanceMatchesLedger` | src/RestauranteInteligente.Infrastructure/Persistence/Configurations/MovimentacaoEstoqueConfiguration.cs:36-38 | in every such state 0 <= balance - ledger <= 0.0001 per exit, with equality to zero exactly when no exit of the ingredient tied |
| `StockProtocol.LedgerOnlyGrows` | src/RestauranteInteligente.Infrastructure/Persistence/AppDbContext.cs:88-97 | over any run committed ledger rows are never changed, removed or reordered, and no ingredient vanishes |
| `StockProtocol.HolderWantsMore` | src/RestauranteInteligente.Infrastructure/Persistence/Repositories/InsumoRepository.cs:42-50 | a transaction that holds a row and waits for another waits for one with a larger id |
| `StockProtocol.ChainEnds` | src/RestauranteInteligente.Application/Vendas/UseCases/RegistrarVendaUseCase.cs:113-130 | following from a waiting transaction to the holder of the row it wants ends at one that can move |
| `StockProtocol.NoDeadlock` | src/RestauranteInteligente.Application/Vendas/UseCases/RegistrarVendaUseCase.cs:113-130 | in every reachable state with an unfinished transaction some transaction can step |
| `StockProtocol.RunsAreBounded` | src/RestauranteInteligente.Application/Estoque/Services/BaixaEstoqueService.cs:52-68 | steps taken plus work left never exceed the work at the start, so no run goes on for ever |
| `StockProtocol.MaximalRunsFinish` | src/RestauranteInteligente.Application/Estoque/Services/BaixaEstoqueService.cs:52-68 | a run that ends where no transaction can move has finished them all |
| `CashSessions.TotalNearExact` | src/RestauranteInteligente.Domain/Entities/ItemVenda.cs:50 | a sale's total is within half a cent per line of the exact sum of quantity times price |
| `CashSessions.SessionsTally` | src/RestauranteInteligente.Domain/Entities/FechamentoCaixa.cs:42-52 | in every serial run each tenant has at most one open session, and every session's total and count are those of the sales linked to it |
| `CashSessions.ClosedForGood` | src/RestauranteInteligente.Domain/Entities/FechamentoCaixa.cs:54-61 | a closed session never changes again, and sales are only ever added |
| `CashSessions.Closes` | src/RestauranteInteligente.Application/Caixa/UseCases/FecharCaixaUseCase.cs:61-71 | a closing closes the tenant's open session, changes nothing else, and leaves it without one |
| `CashSessions.Sells` | src/RestauranteInteligente.Application/Vendas/UseCases/RegistrarVendaUseCase.cs:205-209 | a sale is added with its total to the tenant's open session; no other session and no earlier sale changes, and without an open session nothing does |
| `CashSessions.ClosedUntilOpened` | src/RestauranteInteligente.Application/Caixa/UseCases/FecharCaixaUseCase.cs:61-71 | over every serial run, after a closing the tenant has no open session until its next opening, and a sale in between records nothing |
| `CashSessions.RunNearExact` | src/RestauranteInteligente.Application/Vendas/UseCases/RegistrarVendaUseCase.cs:205-213 | in every serial run a session's total is within half a cent per line sold of the exact value of its sales |
| `SessionProtocol.NeverTwoOpen` | src/RestauranteInteligente.Infrastructure/Persistence/Scripts/01_init_schema_rls.sql:127-129 | with openings and closings interleaved between their read and their write, a tenant never has two open sessions |
| `SessionProtocol.ClosedStaysClosed` | src/RestauranteInteligente.Domain/Entities/FechamentoCaixa.cs:54-61 | in every interleaving rows are only added, keep their tenant, and once closed are never open again |
| `SessionProtocol.StepCloses` | src/RestauranteInteligente.Application/Caixa/UseCases/FecharCaixaUseCase.cs:61-71 | a closing that found a session closes that row whatever has happened since, and no other row changes |
| `SessionProtocol.StepOpens` | src/RestauranteInteligente.Application/Caixa/UseCases/AbrirCaixaUseCase.cs:41-63 | an opening that found none adds one empty open session, or is refused when one is open by then |
| `SessionProtocol.ConcludedIsClosed` | src/RestauranteInteligente.Application/Caixa/UseCases/FecharCaixaUseCase.cs:61-71 | in every interleaving the session of a closing that concluded is one of its tenant's, and closed |
| `SessionProtocol.RefusedIff` | src/RestauranteInteligente.Application/Caixa/UseCases/AbrirCaixaUseCase.cs:41-63 | an opening that read no open session is refused by the index exactly when its tenant has one by the time it writes |
| `RefreshTokens.RedisRefreshTokenService.CreateRefreshToken` | src/RestauranteInteligente.Infrastructure/Security/RedisRefreshTokenService.cs:34-75 | stores the token unused, for the session's user, restaurant and family, and joins it to its family's set, both for the configured number of days; no other token and no other family changes |
| `RefreshTokens.RedisRefreshTokenService.RotateRefreshToken` | src/RestauranteInteligente.Infrastructure/Security/RedisRefreshTokenService.cs:77-125 | an absent token is unknown; a consumed one deletes its whole family; an unused one is marked consumed and kept two minutes |
| `RefreshTokens.RedisRefreshTokenService.InvalidateFamily` | src/RestauranteInteligente.Infrastructure/Security/RedisRefreshTokenService.cs:127-149 | deletes exactly the tokens of the family's set, then the set |
| `RefreshTokens.RedisRefreshTokenService.Login` | src/RestauranteInteligente.Api/Controllers/AuthController.cs:90-94 | a login adds one unused token, of that user in that restaurant, in a new family |
| `RefreshTokens.RedisRefreshTokenService.Refresh` | src/RestauranteInteligente.Api/Controllers/AuthController.cs:115-149 | succeeds exactly when the presented token rotates; the token is then consumed for two minutes, and the new one belongs to the same user, restaurant and family |
| `RefreshTokens.RedisRefreshTokenService.Logout` | src/RestauranteInteligente.Api/Controllers/AuthController.cs:199-207 | a stored token, consumed or not, costs its family every token and its set; any other changes nothing |
| `RefreshTokens.StepKeepsInv` | src/RestauranteInteligente.Infrastructure/Security/RedisRefreshTokenService.cs:49-75 | every request keeps: live tokens tracked by their family's set, which outlives them; at most one unused live token per family; nothing alive in a revoked family; no token rotated twice |
| `RefreshTokens.TokensAreTracked` | src/RestauranteInteligente.Infrastructure/Security/RedisRefreshTokenService.cs:69-71 | at every request boundary of every run a live token is in its family's live set and expires no later, and a family has at most one unused live token |
| `RefreshTokens.RotatesAtMostOnce` | src/RestauranteInteligente.Infrastructure/Security/RedisRefreshTokenService.cs:119-124 | over a whole run a token rotates successfully at most once |
| `RefreshTokens.RevokedForGood` | src/RestauranteInteligente.Infrastructure/Security/RedisRefreshTokenService.cs:111-149 | once a consumed token is presented while stored, or a stored one at logout, no token of its family, issued before or after, is ever again found alive |
| `RefreshTokens.ReuseSeenIff` | src/RestauranteInteligente.Infrastructure/Security/RedisRefreshTokenService.cs:119-121 | presenting a consumed token again revokes its family exactly when it comes within two minutes of the rotation and the family still stands |
| `RefreshTokens.UnusedSurvives` | src/RestauranteInteligente.Api/Controllers/AuthController.cs:124-149 | whatever other sessions do, an unused token rotates when presented before it expires |
| `RefreshTokens.SessionKeepsItsOwner` | src/RestauranteInteligente.Api/Controllers/AuthController.cs:124-149 | however often it is renewed, a session stays that of the user and the restaurant that logged in |
| `RefreshTokens.RotatedWasLoggedIn` | src/RestauranteInteligente.Infrastructure/Security/RedisRefreshTokenService.cs:84-125 | over every run a token rotates only into a session, user and restaurant included, that some earlier login opened |
| `RefreshTokens.LoginLasts` | src/RestauranteInteligente.Infrastructure/Security/RedisRefreshTokenService.cs:49-71 | left alone, the token of a login rotates exactly until the configured number of days is over, into a session of the user and restaurant that logged in |
| `RefreshTokens.RenewalLasts` | src/RestauranteInteligente.Api/Controllers/AuthController.cs:141-149 | so does the token a renewal hands out, for the session it renewed |
| `RateLimiter.SlidingWindow.CheckRateLimit` | src/RestauranteInteligente.Infrastructure/Security/RedisSlidingWindowRateLimiter.cs:14-42 | prunes, counts, admits and re-expires exactly as the script does, and replies accordingly |
| `RateLimiter.ScriptedStep` | src/RestauranteInteligente.Infrastructure/Security/RedisSlidingWindowRateLimiter.cs:20-41 | admits exactly when fewer than the limit are alive, counts them and the admitted one, keeps those alive, drops the rest, and gives the key a whole window only when it admits |
| `RateLimiter.StepRepresents` | src/RestauranteInteligente.Infrastructure/Security/RedisSlidingWindowRateLimiter.cs:21-31 | the pruned, expiring set keeps every member of the full log still inside the window, and nothing that is not in the log |
| `RateLimiter.DecidesByDistinctMembers` | src/RestauranteInteligente.Infrastructure/Security/RedisSlidingWindowRateLimiter.cs:25-31 | whatever the suffixes, a request is admitted exactly when fewer than the limit of distinct members of the whole log lie in the window |
| `RateLimiter.DecidesAsFullLog` | src/RestauranteInteligente.Infrastructure/Security/RedisSlidingWindowRateLimiter.cs:25-31 | a request is decided as the full log of admitted times would decide it exactly when collisions of members do not hide enough of the window, which with distinct members they never do |
| `RateLimiter.NeverOverLimit` | src/RestauranteInteligente.Infrastructure/Security/RedisSlidingWindowRateLimiter.cs:14-32 | no interval of the window's length ever holds more admitted requests than the limit exactly when no request was admitted because colliding members hid others; with distinct members that is always |
| `RateLimiter.OversightExceeds` | src/RestauranteInteligente.Infrastructure/Security/RedisSlidingWindowRateLimiter.cs:25-31 | a request admitted because colliding members hid others overfills the window that ends with it, for good |
| `RateLimiter.CollisionsOverAdmit` | src/RestauranteInteligente.Infrastructure/Security/RedisSlidingWindowRateLimiter.cs:28 | it happens: three requests of one millisecond and one suffix pass a limit of two |
| `RateLimiter.RetryIsExact` | src/RestauranteInteligente.Infrastructure/Security/RedisSlidingWindowRateLimiter.cs:33-41 | after a denial every request before the retry time is denied, and the first at or after it is admitted |
| `RateLimiter.HeaderIsTight` | src/RestauranteInteligente.Api/Middlewares/RateLimitingMiddleware.cs:42-45 | the seconds in Retry-After are never too few, and exceed the retry time by less than one second |
| `RateLimiter.RemainingIsExact` | src/RestauranteInteligente.Api/Middlewares/RateLimitingMiddleware.cs:39-40 | a denial reports that nothing remains; an admission reports the limit less the requests admitted in the window that ends with it, as long as members are distinct |
| `DistributedLock.Redis.StringSetIfAbsent` | src/RestauranteInteligente.Infrastructure/Redis/RedisDistributedLockService.cs:50 | acquires exactly when no live key is stored, and then stores the caller's token with its time to live |
| `DistributedLock.Redis.Release` | src/RestauranteInteligente.Infrastructure/Redis/RedisDistributedLockService.cs:13-18 | deletes the key exactly when it is live and holds the caller's token |
| `DistributedLock.DistributedLockReleaser.Dispose` | src/RestauranteInteligente.Infrastructure/Redis/RedisDistributedLockService.cs:91-118 | the first disposal runs the release, a later one does nothing |
| `DistributedLock.MutualExclusion` | ml/RestauranteInteligente.ML/app/messaging/idempotency.py:61-103 | in every interleaving of C# and Python clients two never hold the same lock at once |
| `DistributedLock.AcquiresIffFree` | src/RestauranteInteligente.Infrastructure/Redis/RedisDistributedLockService.cs:48-55 | an attempt succeeds exactly when no client holds the lock at that moment |
| `DistributedLock.ReleaseSparesOthers` | ml/RestauranteInteligente.ML/app/messaging/idempotency.py:11-17 | a release, however late or repeated, takes the lock from nobody else |
| `DistributedLock.AcquisitionsSeparated` | src/RestauranteInteligente.Infrastructure/Redis/RedisDistributedLockService.cs:48-113 | between two acquisitions of a lock the first holder released it or its time to live ran out |
| `DistributedLock.HoldsExactly` | src/RestauranteInteligente.Infrastructure/Redis/RedisDistributedLockService.cs:48-71 | a client that acquired and does not release holds the lock exactly as long as its time to live runs, and its token is stored all that time |
| `DistributedLock.ReleaseFrees` | src/RestauranteInteligente.Infrastructure/Redis/RedisDistributedLockService.cs:13-18 | once a holder releases, the next attempt of any client on that lock succeeds |
| `SseStream.SplitAppend` | src/frontend/shared/services/sseClient.ts:168-169 | splitting a text with more appended is splitting all but the last piece, then the last piece with the addition |
| `SseStream.ProcessSseBlock` | src/frontend/shared/services/sseClient.ts:199-241 | dispatches what the fields of the block's lines, read in order, make up |
| `SseStream.ReadStream` | src/frontend/shared/services/sseClient.ts:155-174 | however the text is cut into chunks, dispatches the blocks of the whole text in order and keeps its last piece as the buffer |
| `SseStream.ReadWhole` | src/frontend/shared/services/sseClient.ts:175-183 | the path without a streaming body dispatches every piece, the last one included |
| `SseStream.PathsAgreeIff` | src/frontend/shared/services/sseClient.ts:158-183 | the two ways of reading agree exactly when the unterminated end of the text dispatches nothing |
| `SseFields.SplitRejoins` | src/frontend/shared/services/sseClient.ts:168 | the pieces joined by blank lines are the text, and each ends at the first blank line there is |
| `SseFields.LinesRejoin` | src/frontend/shared/services/sseClient.ts:200 | the lines joined by newlines are the block, and none holds a newline |
| `SseFields.TrimMiddle` | src/frontend/shared/services/sseClient.ts:206 | a trim removes the white space at the two ends, all of it, and nothing else |
| `SseFields.FieldsAre` | src/frontend/shared/services/sseClient.ts:205-226 | reading a block line by line ends with its last type, its last id, and its data joined by newlines |
| `SseFields.BlockMeans` | src/frontend/shared/services/sseClient.ts:199-241 | a block dispatches an event exactly when its last `event:` value and its joined `data:` values are both non-empty; the event is these two under the last `id:` value, or under the id made up when that is empty; every other line counts for nothing |
| `SseFraming.SplitWire` | src/RestauranteInteligente.Api/Controllers/EventsController.cs:57-98 | well-formed messages are split back into exactly their bodies |
| `SseFraming.EventParses` | src/frontend/shared/services/sseClient.ts:205-229 | a framed event is parsed back to itself |
| `SseFraming.WireRoundTrips` | src/RestauranteInteligente.Api/Controllers/EventsController.cs:57-99 | any interleaving of representable events, heartbeats and the handshake, cut into any chunks, is dispatched as exactly those events in order, with nothing left over |
| `SseFraming.ParsedShape` | src/frontend/shared/services/sseClient.ts:229-232 | whatever the block, a dispatched event has a trimmed single-line type and id, and a payload shorter than the block |
| `SseFraming.ParsesBackIff` | src/frontend/shared/services/sseClient.ts:199-241 | a framed event is parsed back to itself exactly when its fields are non-empty, trimmed and single-line |
| `SseFraming.BrokenPayloadLost` | src/RestauranteInteligente.Api/Controllers/EventsController.cs:97-98 | an event whose payload holds a newline is never among the events dispatched from its own message |
| `SseFraming.CarriedIff` | src/RestauranteInteligente.Api/Controllers/EventsController.cs:97-98 | sent alone over the wire, an event reaches the listeners unchanged and alone exactly when its fields are non-empty, trimmed and single-line |
| `SseDelivery.BrokenDeliversLess` | src/frontend/shared/services/sseClient.ts:199-241 | nothing dispatched from a payload with a newline is as long as it |
| `SseDelivery.SomeEventLost` | src/RestauranteInteligente.Api/Controllers/EventsController.cs:97-98 | if some event of a sequence is not representable, some event that was sent never arrives |
| `SseDelivery.DeliveredIff` | src/RestauranteInteligente.Api/Controllers/EventsController.cs:57-99 | for any sequence of events and comments, however the text is cut, the listeners receive exactly the events sent, in order, exactly when all of them have non-empty, trimmed, single-line fields; and otherwise not even all of them in some order |
| `SseDelivery.TwoFromOne` | src/frontend/shared/services/sseClient.ts:168-174 | a payload that holds the whole text of another event arrives as two events |
| `SseWriter.StepKeepsInv` | src/RestauranteInteligente.Api/Controllers/EventsController.cs:57-69 | every step of the writing tasks, a cancellation in the middle of a message included, leaves on the wire the finished messages, whole and in order, and a prefix of one other |
| `SseWriter.TasksKeepOrder` | src/RestauranteInteligente.Api/Controllers/EventsController.cs:76-99 | what a task has written, followed by what it has yet to write, is always what it was given |
| `SseWriter.MessageGoesOut` | src/RestauranteInteligente.Api/Controllers/EventsController.cs:57-69 | with the semaphore free and nothing cancelled, the first message of any task can go out whole: it is then on the wire, done and off its queue, and nothing else changed |
| `SseWriter.OwnerCanLeave` | src/RestauranteInteligente.Api/Controllers/EventsController.cs:60-68 | a task never gets stuck with the semaphore: it can finish its message and leave, or leave at once when cancelled |
| `SseWriter.CompleteBlocks` | src/RestauranteInteligente.Api/Controllers/EventsController.cs:57-69 | the complete blocks on the wire are exactly the bodies of the messages written to the end |
| `SseWriter.ClientSees` | src/frontend/shared/services/sseClient.ts:155-174 | at any moment, and however the text is cut, the client has dispatched exactly the events whose messages are written to the end |
| `SseWriter.ListenersGetPrefix` | src/RestauranteInteligente.Api/Controllers/EventsController.cs:71-107 | over any interleaving of the event, heartbeat and handshake writers the listeners receive a prefix of the published events, in order: what they received followed by what is still to be written is what was published |
| `SseReconnect.BaseGrows` | src/frontend/shared/services/sseClient.ts:249-250 | the base delay starts at a second, never shrinks, doubles up to the fifth attempt and is thirty seconds from the sixth on |
| `SseReconnect.DelayWithin` | src/frontend/shared/services/sseClient.ts:249-252 | with jitter a delay is at most a second above its base and always within 1000 to 31000 ms |
| `SseReconnect.SseClient.Connect` | src/frontend/shared/services/sseClient.ts:65-70 | clears the disconnect and the attempts, then starts streaming |
| `SseReconnect.SseClient.Disconnect` | src/frontend/shared/services/sseClient.ts:72-80 | cancels both timers, aborts the latest stream and reports disconnected |
| `SseReconnect.SseClient.ResetHeartbeatWatchdog` | src/frontend/shared/services/sseClient.ts:93-108 | replaces the pending watchdog by a new one |
| `SseReconnect.SseClient.StartStreaming` | src/frontend/shared/services/sseClient.ts:110-141 | does nothing while disconnected by its caller, opens nothing for a simulation token, and otherwise cancels the timers and opens one more stream |
| `SseReconnect.SseClient.ScheduleReconnect` | src/frontend/shared/services/sseClient.ts:243-258 | does nothing while disconnected by its caller; otherwise adds one to the attempts and replaces the timers by one reconnect timer of that number with that number's delay |
| `SseReconnect.SseClient.OnResponse` | src/frontend/shared/services/sseClient.ts:143-155 | a refusal ends the stream, an HTTP error schedules a reconnection, success clears the attempts and starts the watchdog |
| `SseReconnect.SseClient.OnError` | src/frontend/shared/services/sseClient.ts:189-196 | an AbortError, or any error while disconnected by the caller, schedules nothing; any other error schedules a reconnection |
| `SseReconnect.SseClient.OnTimer` | src/frontend/shared/services/sseClient.ts:98-107 | a reconnect timer starts streaming; a watchdog aborts the latest stream of a connected client |
| `SseReconnect.StepKeepsInv` | src/frontend/shared/services/sseClient.ts:82-91 | every event keeps each pending timer named by the field of its kind, and reconnections with a delay fit for their attempt and never beside a disconnect |
| `SseReconnect.AtMostOneTimer` | src/frontend/shared/services/sseClient.ts:243-258 | in every state of every run at most one reconnect timer is pending, none while disconnected by the caller, with a delay within 1000 to 31000 ms |
| `SseReconnect.FieldsRemember` | src/frontend/shared/services/sseClient.ts:65-80 | over every run the attempt count is the number of reconnections scheduled since the latest connect or good response, the flag says whether the caller disconnected since the latest connect, and the token is that connect's |
| `SseReconnect.SchedulingCounts` | src/frontend/shared/services/sseClient.ts:243-258 | a scheduling leaves one timer, numbered one more than the reconnections scheduled before it since the latest connect or good response, with that number's delay |
| `SseReconnect.PendingCounts` | src/frontend/shared/services/sseClient.ts:247-258 | every pending reconnection was set by some event, is numbered by the reconnections scheduled up to it and waits at least their base delay; the number is still that of the reconnections scheduled since the latest connect or good response exactly when none of these came after it was set |
| `SseReconnect.OneWatchdog` | src/frontend/shared/services/sseClient.ts:93-108 | after a good response and after every chunk exactly one watchdog is pending, a new one |
| `SseReconnect.FetchStartsIff` | src/frontend/shared/services/sseClient.ts:110-121 | a request starts exactly at a connect or when the pending reconnect timer fires, with a real token and not disconnected; none starts in a step that leaves the client disconnected by its caller |
| `SseReconnect.GivesUpIff` | src/frontend/shared/services/sseClient.ts:185-196 | a client that is trying keeps trying through every event except a disconnect, a refusal, an AbortError or a start with a simulation token, and through those exactly when something else is still under way |
| `SseReconnect.WatchdogStalls` | src/frontend/shared/services/sseClient.ts:98-107 | in any run, a heartbeat timeout of the only stream leaves the client idle and reporting itself connected: the abort it causes schedules no reconnection |
| `SseReconnect.SomeRunStalls` | src/frontend/shared/services/sseClient.ts:98-107 | such a run: connect, a good response, no heartbeat, the abort |
| `SseReconnect.IdleUntilConnect` | src/frontend/shared/services/sseClient.ts:189-192 | an idle client stays idle until its caller connects again |
| `SseReconnect.OneStreamAtATime` | src/frontend/shared/services/sseClient.ts:65-80 | throughout a run at most one stream is active, never beside a pending reconnection, and none after a disconnect, exactly when every connect with a real token was made with nothing active; one made while a reconnection is pending is safe |
| `SseReconnect.ConnectIsSafeIff` | src/frontend/shared/services/sseClient.ts:65-70 | a connect keeps one stream at a time exactly when it has a simulation token or finds nothing active; otherwise the stream it finds stays active beyond the reach of the controller |
| `SseReconnect.SecondConnectLeaks` | src/frontend/shared/services/sseClient.ts:65-80 | a stream active at a second connect stays active through every later connect and disconnect, until the network ends it |
| `Planning.FloorIsExact` | src/RestauranteInteligente.Application/Previsoes/UseCases/CalcularCapacidadeProducaoUseCase.cs:85-87 | for operands of numeric(18,4) the rounded decimal quotient has the whole part of the exact one |
| `Planning.WholeFits` | src/RestauranteInteligente.Application/Previsoes/UseCases/CalcularCapacidadeProducaoUseCase.cs:85-107 | a whole number of units fits an ingredient's stock exactly when it is at most the whole part of the rounded quotient |
| `Planning.Receita` | src/RestauranteInteligente.Application/Previsoes/UseCases/CalcularCapacidadeProducaoUseCase.cs:58-60 | exactly the lines of the product whose ingredient was loaded, with their stock |
| `Planning.ReceitaParts` | src/RestauranteInteligente.Application/Previsoes/UseCases/CalcularCapacidadeProducaoUseCase.cs:58-60 | in order, and each as often as the recipe has it |
| `Planning.QuotientIs` | src/RestauranteInteligente.Application/Previsoes/UseCases/CalcularCapacidadeProducaoUseCase.cs:85-87 | the whole part of the quotient is that of the stock over the recipe's amount, and zero without an amount |
| `Planning.LeastIsCapacity` | src/RestauranteInteligente.Application/Previsoes/UseCases/CalcularCapacidadeProducaoUseCase.cs:78-107 | the whole part of the least quotient is the largest whole number of units the stock covers, and its ingredient does not cover one more |
| `Planning.PercorrerReceita` | src/RestauranteInteligente.Application/Previsoes/UseCases/CalcularCapacidadeProducaoUseCase.cs:82-105 | finds the least quotient and an ingredient that has it, and adds the product's consumption to the dictionary of all products |
| `Planning.NeedIsForecast` | src/RestauranteInteligente.Application/Previsoes/UseCases/CalcularCapacidadeProducaoUseCase.cs:97-104 | the need of an ingredient is the sum, over the forecasts and their recipe lines of that ingredient, of demand times amount |
| `Planning.ForecastScales` | src/RestauranteInteligente.Application/Previsoes/UseCases/CalcularCapacidadeProducaoUseCase.cs:97 | which for one forecast is the demand times what one unit takes in all |
| `Planning.AnalisarProduto` | src/RestauranteInteligente.Application/Previsoes/UseCases/CalcularCapacidadeProducaoUseCase.cs:52-122 | capacity, bottleneck, risk, deficit and serviceable demand of one forecast; a product without a recipe has no capacity, is at risk for any demand, and lacks all of it |
| `Planning.CalcularCapacidade` | src/RestauranteInteligente.Application/Previsoes/UseCases/CalcularCapacidadeProducaoUseCase.cs:49-156 | one correct item per forecast, in order, and the shopping list of all forecasts together |
| `Planning.ListIsCorrect` | src/RestauranteInteligente.Application/Previsoes/UseCases/CalcularCapacidadeProducaoUseCase.cs:124-143 | the list is exactly the ingredients whose whole need exceeds their stock, each once with the missing amount, in descending order, equal amounts in the order first met |
| `Planning.SugereIff` | src/RestauranteInteligente.Application/Previsoes/UseCases/CalcularCapacidadeProducaoUseCase.cs:124-141 | a suggestion states the stock, the whole need and their difference, which is positive |
| `Planning.PrimeirasParts` | src/RestauranteInteligente.Application/Previsoes/UseCases/CalcularCapacidadeProducaoUseCase.cs:97-104 | an ingredient takes its place in the dictionary when it is first met |
| `Planning.PurchaseSuffices` | src/RestauranteInteligente.Application/Previsoes/UseCases/CalcularCapacidadeProducaoUseCase.cs:124-141 | any purchase makes the recipe-backed forecasts jointly producible exactly when it buys at least the suggested amount of every listed ingredient |
| `Planning.ListIsLeast` | src/RestauranteInteligente.Application/Previsoes/UseCases/CalcularCapacidadeProducaoUseCase.cs:130 | buying the list is enough, and less of any one listed ingredient is not |
| `Planning.RiskIff` | src/RestauranteInteligente.Application/Previsoes/UseCases/CalcularCapacidadeProducaoUseCase.cs:107-110 | a product is reported at risk exactly when the stock does not cover its forecast rounded up to whole units |
| `Planning.WholeRiskIsListed` | src/RestauranteInteligente.Application/Previsoes/UseCases/CalcularCapacidadeProducaoUseCase.cs:109-143 | for a whole forecast a reported risk puts an ingredient of the product on the list |
| `Planning.RiskWithoutPurchaseIff` | src/RestauranteInteligente.Application/Previsoes/UseCases/CalcularCapacidadeProducaoUseCase.cs:107-141 | in any report, a product is at risk with none of its ingredients on the list exactly when the stock does not cover its forecast rounded up to whole units, and yet covers what all the forecasts together ask of each of its ingredients |
| `Planning.LoneRiskWithoutPurchaseIff` | src/RestauranteInteligente.Application/Previsoes/UseCases/CalcularCapacidadeProducaoUseCase.cs:107-141 | for a forecast on its own, the list is empty though the risk is reported exactly when the stock covers the forecast but not the forecast rounded up |
| `Planning.FractionalRiskUnlisted` | src/RestauranteInteligente.Application/Previsoes/UseCases/CalcularCapacidadeProducaoUseCase.cs:107-110 | it happens: a forecast of 1.5 units with 1.5 in stock is reported at risk, and the list is empty |
| `Planning.MinimumOfPortions` | src/RestauranteInteligente.Api/Controllers/EstoqueController.cs:261-265 | the minimum over the lines, none when any line overflows |
| `Planning.PortionsAre` | src/RestauranteInteligente.Api/Controllers/EstoqueController.cs:261-265 | a line contributes the whole part of its stock over its amount, and zero when its ingredient is missing or it takes nothing |
| `Planning.ControllerAgreesIff` | src/RestauranteInteligente.Api/Controllers/EstoqueController.cs:261-276 | the controller's figure overflows exactly when one line alone allows more than an int holds; otherwise it equals the use case's capacity exactly when every ingredient was loaded or that capacity is zero |
| `DemandSeries.FetchedByDay` | src/RestauranteInteligente.Infrastructure/Persistence/Repositories/VendaRepository.cs:28-36 | the fetch limit is a day boundary: a sale is within it exactly when its day is |
| `DemandSeries.HistoryAddsUp` | src/RestauranteInteligente.Application/Caixa/UseCases/FecharCaixaUseCase.cs:80-84 | the history has strictly increasing dates, no empty day, and counts that add up to the number of fetched sales |
| `DemandSeries.OneSlotPerDay` | src/RestauranteInteligente.Application/Caixa/UseCases/FecharCaixaUseCase.cs:149-151 | a day has a slot exactly when it is one of the fourteen before the closing day, and never two |
| `DemandSeries.ItemParts` | src/RestauranteInteligente.Application/Caixa/UseCases/FecharCaixaUseCase.cs:157-161 | an item of the product counts whole, an item of another product not at all |
| `DemandSeries.ItemsConcat` | src/RestauranteInteligente.Application/Caixa/UseCases/FecharCaixaUseCase.cs:159 | the items of several sales count as one list |
| `DemandSeries.OtherProductsIgnored` | src/RestauranteInteligente.Application/Caixa/UseCases/FecharCaixaUseCase.cs:157-161 | a product's series is the same whatever else the sales held |
| `DemandSeries.DayOf` | src/RestauranteInteligente.Application/Caixa/UseCases/FecharCaixaUseCase.cs:157 | a sale belongs to the day whose midnight is the last one before it |
| `DemandSeries.FetchParts` | src/RestauranteInteligente.Infrastructure/Persistence/Repositories/VendaRepository.cs:28-36 | the fetch keeps the completed sales from the limit on, in order and once each |
| `DemandSeries.SlotIsStored` | src/RestauranteInteligente.Application/Caixa/UseCases/FecharCaixaUseCase.cs:155-162 | a slot holds what all stored completed sales of its day sold of the product |
| `DemandSeries.SlotsAddUp` | src/RestauranteInteligente.Application/Caixa/UseCases/FecharCaixaUseCase.cs:155-162 | the first k slots add up to the quantity of the product sold on the first k days |
| `DemandSeries.SeriesConserves` | src/RestauranteInteligente.Application/Caixa/UseCases/FecharCaixaUseCase.cs:76-162 | a product's fourteen slots add up to its quantity in stored completed sales of the fourteen days before the closing day |
| `DemandSeries.HistoryExceedsSeries` | src/RestauranteInteligente.Application/Caixa/UseCases/FecharCaixaUseCase.cs:80-162 | the history counts the sales that have a slot in the series plus those of the closing day or later, which have none |
| `DemandSeries.PublicarSeries` | src/RestauranteInteligente.Application/Caixa/UseCases/FecharCaixaUseCase.cs:149-175 | one request per active product, in order, for the day after the closing, each of its fourteen slots holding what stored completed sales of that day sold of the product |

## Left out

- Tenant isolation: query filters, row-level security and the tenant check of `SaveChangesAsync`; every proof is within one restaurant.
- The optimistic `xmin` token of `Insumos`: rows are locked before they are read, so it never fires on these paths.
- Locks other than those on `Insumos`: the session row is updated once, in the save that ends a sale, after all of them.
- Concurrent sales on one cash session: the session is read before the transaction without a lock, so its totals are stated for serial runs only.
- A sale that commits on a session closed since it was read: `SessionProtocol` interleaves openings and closings, not sales.
- Unique names of ingredients, the validation of names and costs, and everything about unit cost and margins.
- Publishing the critical-stock alerts: which ingredients are reported is modelled, the payload and a failing publisher are not.
- Adjustment rows (`TipoMovimentacao.Ajuste`) and `Venda.Cancelar`: no use case reaches them.
- Token rotation finer than one request: the read and the write of a rotation are one step, so two simultaneous refreshes with one token are not modelled.
- The access-token blacklist of a logout, password checks and the generation of tokens.
- The limiter's answer when Redis fails (it lets the request pass) and the choice of limit and window per route.
- Pacing of lock attempts and their time-outs: a client may attempt or give up at any time. The C# loop attempts at least once, the Python one looks at the clock first.
- Redis failures while releasing a lock, which are logged and ignored.
- Decoding of bytes to text, the timestamp of a dispatched event, and listeners of the event stream that throw.
- Listeners that call connect or disconnect from inside a status change.
- The session's weather data, the consolidated message and the failure of the publisher when a session closes.
- The order in which fetched sales are listed: the history is ordered by day and the series by slot whatever it is.
- DemandSeries.SeriesConserves: requires a closing time past the first fourteen days of the epoch, so that days are natural numbers.
- Consumers of the message broker, the forecasting service and the mobile screens.
