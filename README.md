# cartao-bot, modelled in Dafny

cartao-bot is a Telegram bot for controlling credit-card spending. Each user's spending is
split into envelopes called *caixinhas*. An envelope has a name, a limit (`limite`) and
the amount spent in the current billing cycle (`gasto_atual`). A purchase comes in one of
three ways: a photo of a receipt, a voice note or a line of text. An AI model extracts
the amount, the payee and a suggested category.

When the payee is remembered, the purchase is charged at once to that payee's envelope.
Otherwise the bot parks it in a pending-confirmation dictionary, suggests an envelope,
and waits for a button press.

Around this ledger:
- A set of alert rules classifies each envelope by how much of its limit has been used.
- The same rules estimate the daily burn rate and forecast when the envelope will run out.
- A reminder sweep warns about recurring bills that fall due in the next five days.
- A scheduler zeroes the spend on the day after the card's closing day, and sends a
  closing report on the closing day itself.

The project models that domain logic, one Dafny module per part of the program:

| module | file | models |
|---|---|---|
| `Comum` | comum.dfy | `Option`/`Result`, `max`, list filtering and summing, the next primary key |
| `Texto` | texto.dfy | `upper()`, `lower()`, `strip()`, `split`, `join`, `rsplit`, `replace`, `int()`/`float()` on text and `str()` of an integer |
| `Calendario` | calendario.dfy | Python dates: proleptic Gregorian ordinals, seconds of the day, and `timedelta.days` as floor division |
| `Banco` | banco.dfy | database.py: the four tables, as a `Database` class whose methods update them in place |
| `Alertas` | alertas.dfy | alertas.py: alert level, threshold crossing, burn rate, exhaustion forecast, message and tip branches |
| `Lembretes` | lembretes.dfy | lembretes_recorrentes.py: due-date countdown, reminder rule, message branch, the daily sweep over an in-memory recurring-bill store |
| `Agendador` | agendador.dfy | scheduler_v3.py: reset day, the reset sweep, the closing-report sweep and its overall percentage |
| `Extracao` | extracao.dfy | audio_processor.py and gemini_processor.py: the `_validar_dados` normalisers, code-fence stripping, the category check |
| `Bot` | bot.dfy | bot_v2.py: authorisation, the six alert bands, `/criar` and `/fechamento` argument checks, the generic-payee rule, callback data, and the `pending_transactions` life cycle |

How values are represented:
- Money and percentages are `real`. Floating-point rounding is not modelled.
- A timestamp is a date plus the seconds since midnight. Timestamps are compared through
  `Instante`, the Python ordinal times 86400 plus the seconds.
- `(a - b).days` is floor division of the difference in seconds.

How state is represented:
- Tables are sequences of records in insertion order, which stands in for the primary-key
  order that SQLite returns rows in.
- A new row's id is one more than the largest id in its table.
- The bot's handlers are pure transitions on `Tabelas` (the four tables plus the pending
  dictionary).
- The `Bot` class runs the same steps against a `Database` object and is proved to
  produce exactly that transition.

What the outside world becomes:
- The clock is a parameter: `agora` (now) or `hoje` (today).
- The AI model is a parameter: the text it answers (`resposta`), and the JSON reading of
  that text (`analisar`).
- The 8-character uuid prefix is the parameter `chave`.
- Telegram send failures are the sets of users or bills whose send fails (`falhas`,
  `falhaEnvio`, `falhaReset`).
- The recurring-bill tables are not defined in database.py. They are an abstract store,
  `Lembretes.Recorrentes`. It has exactly the fields and the three operations the reminder
  sweep uses: listing the active bills, finding or creating this month's payment, and
  stamping `ultimo_lembrete`.

Some behaviour of the code that the model keeps as it is:
- Reminders for a bill 1 to 5 days away are spaced by 24 hours elapsed since the last
  one, not by calendar day (lembretes_recorrentes.py:63-64).
- Confirming a purchase saves its payee to payee memory even when the payee is generic
  (bot_v2.py:579, bot_v2.py:654, bot_v2.py:909). Only the lookup skips the generic names
  (bot_v2.py:465-467).
- The voice handler compares the payee only with "NÃO ESPECIFICADO" (bot_v2.py:770).
- Creating an envelope inline during a confirmation does not check that `limite > 0`
  (bot_v2.py:887-893). `/criar` does (bot_v2.py:155).
- The reminder sweep runs with two countdowns, chosen by `Versao`. `ComoEscrito` is the
  code as written: `calcular_dias_ate_vencimento` and `gerar_mensagem_lembrete`
  unchanged (lembretes_recorrentes.py:17-40, lembretes_recorrentes.py:68-117).
  `Corrigida` is the calendar-day countdown with the due month shown, the corrected half
  of the two findings below. Every sweep lemma and method holds for both.

## Model

| member | source | states |
|---|---|---|
| `Banco.SaldoRestante` | database.py:25-27 | what is left is the limit minus the spend; nothing is left exactly when the spend reaches the limit |
| `Banco.PercentualUsado` | database.py:29-31 | 0 whenever the limit is not positive (no division by zero); otherwise percentage × limit = spend × 100 |
| `Banco.PercentualCheioSemSaldo` | database.py:25-31 | with a positive limit, the envelope is at or over 100% exactly when its remaining balance is at or below zero |
| `Banco.SaldoPodeFicarNegativo` | database.py:125-128 | spending past the limit is not blocked: a 50.0 charge on 90.0 of 100.0 leaves a balance of -40.0 and 140% used |
| `Banco.Database.constructor` | database.py:89-93 | a fresh database has four empty tables |
| `Banco.Database.CriarCaixinha` | database.py:95-100 | appends exactly one envelope with the next id, the given name and limit, and zero spend; nothing else changes |
| `Banco.Database.ListarCaixinhas` | database.py:102-104 | the result holds exactly the envelopes of that user |
| `Banco.Database.BuscarCaixinhaPorCategoria` | database.py:106-111 | a result is an envelope of that user with exactly that name; there is no result exactly when no such envelope exists |
| `Banco.CaixinhaChamada` | database.py:106-111 | the first-match lookup by (user, name): it finds a matching envelope, and it finds none exactly when there is none |
| `Comum.IndicePorId` | database.py:126 | `query(T).get(id)` over any table: a found index holds that id; nothing is found exactly when no row has it |
| `Comum.IndicePorIdUnico` | database.py:126 | with distinct ids, `get` of a row's own id finds that row |
| `Banco.IndiceCaixinha` | database.py:126 | `query.get(id)`: a found index holds that id; nothing is found exactly when no envelope has it |
| `Banco.Database.AdicionarTransacao` | database.py:113-132 | appends exactly one transaction with the given fields; the envelopes become `Debitar(old, id, valor)`, which raises only the envelope with that id (none when the id is unknown); payees and configs unchanged |
| `Banco.TotaisAposDebitar` | database.py:113-132 | for any user: after a charge, the user's total spend grows by exactly `valor` when the envelope is theirs, and by 0 otherwise; their total limit is unchanged |
| `Banco.Database.SalvarEstabelecimentoConhecido` | database.py:174-183 | appends one payee row storing the upper-cased name, with no deduplication; nothing else changes |
| `Banco.PrimeiroEstabelecimento` | database.py:167-172 | the lookup returns a row of that user under that key, and returns nothing exactly when no such row exists |
| `Banco.Database.BuscarEstabelecimentoConhecido` | database.py:167-172 | a found row belongs to the user, and its name is the upper-cased query |
| `Banco.PrimeiroEstabelecimentoSnoc` | database.py:167-183 | an appended row is found only when no earlier row of that user has the same key: the first match wins |
| `Banco.MemoriaAposSalvar` | database.py:167-183 | after saving, a lookup in any letter case that upper-cases to the same name finds a row of that user: the earlier first match if there was one, else the new row |
| `Banco.Database.DefinirDiaFechamento` | database.py:185-197 | upsert: afterwards the user's closing day is `dia`; every other user's closing day is unchanged; a row is added only when the user had none; the other tables are unchanged; at most one config per user is kept |
| `Banco.IndiceConfig` | database.py:187 | the first config of the user: no earlier row is the user's; found exactly when the user has one |
| `Banco.DiaFechamentoEm` | database.py:199-202 | `obter_dia_fechamento`: None when the user has no config; otherwise the closing day of the user's first config row |
| `Banco.IndiceConfigAposInserir` | database.py:192-194 | inserting a config for a user who had none makes it that user's config and changes no other user's lookup |
| `Banco.IndiceConfigAposAtualizar` | database.py:189-191 | updating the user's config in place keeps it that user's config |
| `Banco.Database.ResetarGastosMensais` | database.py:204-210 | the user's envelopes get zero spend and keep their limits; other users' envelopes are unchanged; returns the number of the user's envelopes; other tables unchanged |
| `Banco.TotaisAposZerar` | database.py:204-210 | after the reset, the user's total spend is 0 and their total limit is unchanged; every other user's envelopes are identical |
| `Banco.RelatorioAposReset` | database.py:204-270 | after a reset, the report's available amount equals the sum of the user's limits |
| `Banco.Database.ResetarTudoUsuario` | database.py:212-236 | removes exactly the user's transactions, payees, envelopes and config, keeping every other row in order |
| `Banco.ApagarUsuario` | database.py:212-236 | after the wipe, the user has no envelopes and no closing day; every other user's envelopes are unchanged |
| `Banco.Database.GetRelatorioMensal` | database.py:243-271 | the report's envelopes are the user's; the totals are the sums of their spend and limits; available = limit − spend; the month's transactions are exactly the user's transactions dated in today's month and year; the count matches them |
| `Banco.CategoriaDe` | database.py:297 | the bucket category is never empty; it is the transaction's own category when one is set, otherwise "Sem categoria" |
| `Banco.UmGrupoPorTransacao` | database.py:295-301 | a transaction lies in the (month, category) bucket exactly when that is its own month and category |
| `Banco.ContagensSomam` | database.py:295-301 | summed over a list that names each bucket once, the bucket counts add up to the number of transactions |
| `Banco.OrdenarMeses` | database.py:305 | sorting the distinct months gives the same months, latest first |
| `Banco.AcrescentarPasso` | database.py:298-301 | one loop iteration keeps the invariants: every transaction seen so far has its bucket, and every bucket holds exactly the total, count and list of its transactions |
| `Banco.HistoricoAgrupado` | database.py:289-308 | the loop's dict and the sorted months together give get_historico_consolidado's result: months latest first, the same set of months, and every bucket exact |
| `Banco.Database.GetHistoricoConsolidado` | database.py:273-308 | None exactly when the period has no transactions of the user; otherwise months are ordered latest first, are exactly the dict's keys, every transaction has a bucket, and every bucket sums exactly its own transactions |
| `Alertas.CalcularNivelAlerta` | alertas.py:54-72 | with no positive limit the level is ok; otherwise it is estourado exactly when spend ≥ limit, alerta or above exactly when spend ≥ 80% of the limit, and atencao or above exactly when spend ≥ 50% |
| `Alertas.NivelPorPercentual` | alertas.py:63-72 | the four bands, with inclusive lower bounds: ≥100 estourado, [80,100) alerta, [50,80) atencao, <50 ok |
| `Alertas.NivelMonotono` | alertas.py:63-72 | the level is monotone in the percentage |
| `Alertas.DeveEnviarAlertaAposGasto` | alertas.py:152-166 | the loop's answer is true exactly when some L in {50, 75, 90, 100} has anterior < L ≤ atual |
| `Alertas.CruzaLimiteSeAlcancouMais` | alertas.py:159-166 | a threshold is crossed exactly when the new percentage reaches more of the four thresholds than the old one; so no alert when the percentage did not rise |
| `Alertas.JanelaRecente` | alertas.py:20-25 | the window is the envelope's transactions created no earlier than `dias` days before now, in table order: a transaction is in it exactly when it is the envelope's and that recent |
| `Alertas.GastoDiarioMedioJanela` | alertas.py:16-33 | an empty window gives 0; otherwise average × max(days since the first one + 1, 1) = the window's total; for a first transaction not in the future that divisor is between 1 and dias + 1 |
| `Alertas.PreverDataEstouro` | alertas.py:35-52 | no forecast exactly when the balance ≤ 0 or the average ≤ 0; otherwise the forecast is now + balance/average days, strictly after now |
| `Alertas.DiasRestantes` | alertas.py:112 | the whole days until the forecast exist exactly when the forecast does; they are never negative, and they are floor(balance / daily average) |
| `Alertas.DiasRestantesPiso` | alertas.py:35-52 | the days left d satisfy d × average ≤ balance < (d + 1) × average: the balance lasts d whole days at the current pace, and not d + 1 |
| `Alertas.GerarMensagemAlerta` | alertas.py:74-136 | no message exactly at level ok; the branch is the level's; the overrun is the absolute balance; a non-overrun message carries the forecast exactly when there is one; the red alert shows the days left exactly when at most 3; the yellow one never does |
| `Alertas.VerificarAlertasUsuario` | alertas.py:138-150 | the loop returns `AlertasDe` of the user's envelopes |
| `Alertas.QuemPrecisam` | alertas.py:145-148 | the envelopes whose level is not ok |
| `Alertas.AlertasUmPorCaixinha` | alertas.py:138-150 | one message per non-ok envelope, in envelope order, each the one `gerar_mensagem_alerta` builds |
| `Alertas.CorteDiario` | alertas.py:221-225 | the cut-back tip appears exactly when the forecast is at most 5 days away, and then asks for 30% of the daily average |
| `Alertas.GerarDicasEconomia` | alertas.py:201-240 | no tips exactly at level ok; estourado yields exactly three tips; atencao two; alerta the two fixed tips, preceded by the cut-back tip exactly when the forecast is at most 5 days away |
| `Lembretes.DataVencimento` | lembretes_recorrentes.py:24-37 | the due day is this month's when today's day ≤ the due day, otherwise next month's, with December rolling over to January of the next year |
| `Lembretes.DiasAteVencimentoComoEscrito` | lembretes_recorrentes.py:17-40 | the countdown as written fails exactly when the due date does not exist; otherwise it is the floor, in whole days, of the time from now to midnight of the due date |
| `Lembretes.ComoEscritoUmDiaAntes` | lembretes_recorrentes.py:37-40 | the count as written is the calendar-day gap minus one whenever now is past midnight |
| `Lembretes.ComoEscritoContraExemplo` | lembretes_recorrentes.py:37-40 | at 09:00 on March 8, a bill due on the 10th counts 1 rather than 2; on March 10 it counts -1 rather than 0 |
| `Lembretes.DiasAteVencimentoCalendario` | lembretes_recorrentes.py:17-40 | the corrected countdown fails exactly when the due date does not exist; otherwise it is the calendar-day gap, between 0 and 30, and 0 exactly on the due day |
| `Lembretes.DeveEnviarLembrete` | lembretes_recorrentes.py:42-66 | a reminder is only ever due for an unpaid bill 0 to 5 days away; always on the due day; always for a bill 1 to 5 days away never reminded before |
| `Lembretes.DeveEnviarLembreteRegra` | lembretes_recorrentes.py:42-66 | a reminder is due exactly when the bill is unpaid and either it is due today, or it is due in 1..5 days with no previous reminder or with at least 24 h since the last one |
| `Lembretes.NoMaximoUmPorDia` | lembretes_recorrentes.py:58-66 | within 24 h of a reminder, no further reminder is sent for a bill 1..5 days away |
| `Lembretes.NomeCaixinha` | lembretes_recorrentes.py:80 | the envelope name is found exactly when the bill has an envelope id that is present |
| `Lembretes.GerarMensagemLembreteComoEscrito` | lembretes_recorrentes.py:68-117 | the message as written: an error exactly when the bill's envelope is missing; due-today branch exactly when dias = 0; "AMANHÃ" exactly when 1; otherwise "em N dias"; a variable bill warns "not defined" exactly when this month's amount is missing or zero; a fixed bill shows `valor_padrao`; the shown month is the current month |
| `Lembretes.GerarMensagemLembrete` | lembretes_recorrentes.py:68-117 | the corrected message: the same branches as the message as written, but the shown month is the due date's month |
| `Lembretes.MesExibidoContraExemplo` | lembretes_recorrentes.py:72-73 | on January 31, a bill due on the 2nd is due in February; as written the message shows 2/01, and the corrected message shows 2/02 |
| `Lembretes.VersoesDiferemNaContagem` | lembretes_recorrentes.py:17-117 | the code as written and the corrected version agree on whether a countdown exists and on whether a message can be built; their messages differ only in the month shown |
| `Lembretes.IndicePagamento` | lembretes_recorrentes.py:153 | the first payment row of that bill, user, month and year: it matches, no earlier row matches, and there is none exactly when no row matches |
| `Lembretes.IndicePagamentoPorId` | lembretes_recorrentes.py:166 | `get(id)`: a found row has that id; nothing is found exactly when no row has it |
| `Lembretes.PagamentoVisto` | lembretes_recorrentes.py:153 | the row `obter_ou_criar_pagamento_mes` hands back is always for that bill, user, month and year |
| `Lembretes.Recorrentes.constructor` | lembretes_recorrentes.py:127 | the store starts with the given bills and no payments |
| `Lembretes.Recorrentes.ListarGastosRecorrentes` | lembretes_recorrentes.py:142 | exactly the user's active bills |
| `Lembretes.Recorrentes.ObterOuCriarPagamentoMes` | lembretes_recorrentes.py:153 | returns this month's existing payment unchanged, or appends exactly one new unpaid payment with no amount and no reminder |
| `Lembretes.Recorrentes.AtualizarUltimoLembrete` | lembretes_recorrentes.py:166 | stamps `ultimo_lembrete := now` on the payment with that id and on nothing else |
| `Lembretes.DesfechoEstavel` | lembretes_recorrentes.py:144-169 | what happens to a bill (its row as seen, whether it is reminded, its message, whether it aborts the sweep) depends only on that bill's own payment rows |
| `Lembretes.PassoGastoDesfecho` | lembretes_recorrentes.py:144-169 | handling one bill raises exactly when it aborts (an impossible due date, or a due reminder whose envelope is missing); otherwise it sends exactly one reminder, with the message built from the rows, when the bill is in the 0..5 window, the rule holds for its payment and its send does not fail, and none otherwise |
| `Lembretes.PassoGastoLinhas` | lembretes_recorrentes.py:148-166 | a bill outside the window leaves the rows unchanged; inside it, its month's row exists afterwards and is stamped exactly when it was reminded; no other bill's rows change |
| `Lembretes.PassoGastoDeslocado` | lembretes_recorrentes.py:144-169 | handling a bill only appends to the reminders already sent |
| `Lembretes.PassoGastoPromessa` | lembretes_recorrentes.py:144-169 | handling an active bill keeps the safety promise: no failed send recorded, a row stamped only after a send that went through, new rows only for bills in the window |
| `Lembretes.PassoFeito` | lembretes_recorrentes.py:144-169 | handling one more bill keeps the progress promise: every bill handled so far is reminded exactly when it was eligible on the starting rows, and the others are untouched |
| `Lembretes.PassoGastosFeito` | lembretes_recorrentes.py:144-169 | over a list of distinct bills still to come: no bill is reminded twice; without an error each is handled; an error names a bill in the list that aborts |
| `Lembretes.PassoGastosDeslocado` | lembretes_recorrentes.py:144-169 | the inner loop only appends to the reminders already sent |
| `Lembretes.VarrerVisitados` | lembretes_recorrentes.py:132-171 | the outer loop processes each user at most once, only users with an active bill, and without an error every user of the bills it walked |
| `Lembretes.VarrerPromessa` | lembretes_recorrentes.py:132-171 | the outer loop keeps the safety promise |
| `Lembretes.VarrerFeito` | lembretes_recorrentes.py:132-171 | the outer loop keeps the progress promise over the users it processed; an error names an active bill that aborts |
| `Lembretes.Varredura` | lembretes_recorrentes.py:119-178 | a whole sweep: users processed once each, and all of them without an error; no bill reminded twice; without an error every active bill is reminded exactly when it is in the window, the rule holds for its payment and its send does not fail, with the message built from the starting rows; an error names an active bill that aborts |
| `Lembretes.ProcessarGasto` | lembretes_recorrentes.py:144-169 | the loop body against the store equals `PassoGasto`: it raises exactly when the bill aborts, and otherwise appends one reminder exactly when the bill is eligible |
| `Lembretes.ProcessarUsuario` | lembretes_recorrentes.py:141-171 | the inner loop against the store equals `PassoGastos` over the user's active bills: no bill reminded twice; without an error each of the user's active bills is reminded exactly when it is eligible; an error names one of them that aborts |
| `Lembretes.PercorrerGastos` | lembretes_recorrentes.py:141-169 | the inner loop against the store equals `PassoGastos` over the user's active bills, in table order |
| `Lembretes.PercorrerAtivos` | lembretes_recorrentes.py:130-171 | the outer loop against the store equals `Varrer` over the active bills |
| `Lembretes.VerificarEEnviarLembretes` | lembretes_recorrentes.py:119-178 | the sweep against the store: the users are processed once each, and all of them without an error; no bill is reminded twice; without an error, an active bill is reminded exactly when it is in the window, the rule holds for its payment and its id is not among the failed sends; an error names an active bill that aborts; stamps only follow sends that went through; new rows only for bills in the window |
| `Agendador.DiaReset` | scheduler_v3.py:39 | for a closing day in 1..28, the reset day is in 1..28 and differs from the closing day |
| `Agendador.DiaResetCiclico` | scheduler_v3.py:39 | every reset day 1..28 comes from exactly one closing day: the day before, with 1 coming from 28 |
| `Agendador.UsuariosAResetarMembros` | scheduler_v3.py:34-45 | a user is reset exactly when some config of theirs has a closing day whose reset day is today |
| `Agendador.ZerarVariosEfeito` | scheduler_v3.py:45 | after the resets, exactly the envelopes of reset users have zero spend, and every other envelope is unchanged |
| `Agendador.AvisosCorretos` | scheduler_v3.py:47-63 | one notice for each reset user whose send succeeds, carrying that user's envelope count, and no other notices |
| `Agendador.VerificarResetAutomatico` | scheduler_v3.py:25-66 | the envelopes become the reset of exactly the users reset; other tables unchanged; without an error, those are all the due users; a reset failure stops the sweep after the users before it; a failed notice does not undo its reset |
| `Agendador.FaixaRelatorio` | scheduler_v3.py:100 | the closing report's four per-envelope bands: <50, [50,80), [80,90), ≥90 |
| `Agendador.MontarLinhas` | scheduler_v3.py:98-107 | one report line per envelope, in order |
| `Agendador.PercTotal` | scheduler_v3.py:110 | 0 when the total limit ≤ 0, otherwise percentage × limit = spend × 100 |
| `Agendador.PercTotalUmaCaixinha` | scheduler_v3.py:110 | for a single envelope, the overall percentage is that envelope's `percentual_usado` |
| `Agendador.PercTotalCheio` | scheduler_v3.py:110 | with a positive total limit, the overall percentage is at least 100 exactly when spend ≥ limit |
| `Agendador.RelatorioDeCoerente` | scheduler_v3.py:86-122 | a report is for that user; it has one line per envelope of theirs, in table order, each line being that envelope's name, spend, limit, balance and percentage; the totals are the sums of spend and limit, the available total is their difference, the overall percentage is the spend over the limit (0 without a limit), the transaction count is the number of the user's transactions dated this month, and it names the reset day of the closing day |
| `Agendador.RelatoriosExatos` | scheduler_v3.py:77-91 | a report is sent exactly for the configs whose closing day is today and whose user has at least one envelope |
| `Agendador.EnviarRelatorioFechamento` | scheduler_v3.py:68-137 | the sweep's reports are `RelatoriosDe` of all configs |
| `Extracao.CategoriaDe` | audio_processor.py:131-144 | the category is always one of the eight whitelisted names; it is the suggested one when that one is whitelisted, otherwise "Outros" |
| `Extracao.ValorDe` | audio_processor.py:120-125 | the amount is `float(valor)` when that is present, truthy and convertible, and None otherwise |
| `Extracao.ValidarDadosAudio` | audio_processor.py:110-154 | the field-by-field fill equals `DadosAudioDe` |
| `Extracao.DadosAudioPadrao` | audio_processor.py:112-118 | the defaults for an empty dict: no amount, "Não especificado", "Outros", empty description, no payment method |
| `Extracao.DadosAudioNormalizados` | audio_processor.py:120-153 | whitelisted category; payee is the default or upper-case; payment method lower-case; an amount only when present |
| `Extracao.DadosAudioEstaveis` | audio_processor.py:110-154 | validating an already normalised record gives it back: a non-zero amount, a non-empty upper-case payee, a valid category and a non-empty lower-case payment method. The default payee "Não especificado" is not upper-case, so a record carrying it is outside this lemma |
| `Extracao.ParseDataISO` | gemini_processor.py:119 | a date parsed from a four-digit year and a one- or two-digit month and day is a valid calendar date |
| `Extracao.DataISOIdaVolta` | gemini_processor.py:119 | formatting a valid date as YYYY-MM-DD and parsing it back gives the same date |
| `Extracao.ValidarDadosComprovante` | gemini_processor.py:96-140 | the field-by-field fill equals `DadosComprovanteDe` |
| `Extracao.ComprovanteSempreDatado` | gemini_processor.py:116-123 | the receipt always has a valid date: now, or a correctly parsed date field |
| `Extracao.CercasAudioIguais` | audio_processor.py:91-96 | both branches of the audio fence stripper do the same thing |
| `Extracao.CercaRemovida` | gemini_processor.py:79-81 | a fenced response has its first and last lines dropped, leaving the body |
| `Extracao.SemCercaIntacto` | gemini_processor.py:79-81 | an unfenced response is left unchanged |
| `Extracao.ProcessarRespostaAudio` | audio_processor.py:87-108 | no result exactly when there is no answer or it is not JSON (the exception path); otherwise the validated dict |
| `Extracao.ProcessarRespostaComprovante` | gemini_processor.py:76-90 | no result exactly when there is no answer or it is not JSON; otherwise the validated dict |
| `Extracao.CategorizarEstabelecimento` | gemini_processor.py:142-167 | None for an empty list or no answer; any result is a member of the list; a result exists exactly when the stripped answer is in the list |
| `Bot.AcessoLivre` | bot_v2.py:48-54 | an unset or empty `ALLOWED_USER_ID` lets everyone in |
| `Bot.AutorizadoPorLista` | bot_v2.py:48-54 | for a comma list of ids padded with blanks, a user is authorised exactly when their id is listed |
| `Bot.AlertaGasto` | bot_v2.py:57-70 | the six bands with inclusive lower bounds: ≥100, [90,100), [80,90), [70,80), [50,70), <50 |
| `Bot.AlertaGastoRefinaNivel` | bot_v2.py:57-70 | the six bands refine the four alert levels of alertas.py |
| `Bot.ValidarCriar` | bot_v2.py:144-157 | fewer than two arguments is a usage error; a last argument that is not a number is rejected; a limit ≤ 0 is rejected; otherwise the limit is that number and positive |
| `Bot.CriarNomeELimite` | bot_v2.py:151-159 | `/criar` on words and an integer: the name is the words joined by spaces; the envelope is created exactly when the limit is positive |
| `Bot.Bot.Criar` | bot_v2.py:136-172 | unauthorised or invalid calls change nothing; otherwise exactly one envelope with the parsed name and a positive limit is appended |
| `Bot.ValidarDia` | bot_v2.py:202-210 | accepted days are integers in 1..28; a non-integer and an out-of-range day are told apart |
| `Bot.ValidarDiaTexto` | bot_v2.py:202-210 | the text of an integer day is accepted exactly when it is in 1..28 |
| `Bot.Bot.Fechamento` | bot_v2.py:175-228 | without arguments it shows the stored day; a refused day changes nothing; an accepted day becomes the user's closing day, the reply names its reset day, and the other tables are unchanged; no other user's closing day changes |
| `Bot.DoComprovante` | bot_v2.py:453-460 | the photo handler keeps the receipt's payee when it is present and non-empty, and uses "Não identificado" otherwise; amount, date and suggested category are the receipt's; there is no description or payment method |
| `Bot.DoAudio` | bot_v2.py:765 | the voice and text handlers' payee is the extracted payee upper-cased (so it is upper-case); the date is the moment of the message; amount, category, description and payment method are the extraction's |
| `Bot.FallbacksNuncaConsultados` | bot_v2.py:464-467 | the fallback payee names are never looked up in payee memory |
| `Bot.AudioConsultaNaoIdentificado` | bot_v2.py:770 | the voice handler looks up "NÃO IDENTIFICADO", which the photo and text handlers skip |
| `Bot.CallbackIdaVolta` | bot_v2.py:557-704 | every button's callback data parses back to the same button when the key is an 8-hex-digit uuid prefix |
| `Bot.IdaVoltaConfirmar` | bot_v2.py:528-561 | `confirm_{k}_{id}` parses back to (k, id) when k contains no underscore and no letter "o": `replace("confirm_", "")` at bot_v2.py:559 removes every occurrence, and the digits of an id never contain "o" |
| `Bot.IdaVoltaSelecionar` | bot_v2.py:628-636 | `sel_{k}_{id}` parses back to (k, id) through `rsplit` |
| `Bot.SublinhadoNaChave` | bot_v2.py:559-561 | a key containing an underscore is misread: `confirm_a_b_id` parses as (a, b) |
| `Bot.Consultar` | bot_v2.py:563-567 | looking a key up finds its entry, and finds nothing exactly when the key is absent |
| `Bot.InserirEfeito` | bot_v2.py:518 | an insert keeps keys unique, binds the key to the new entry (overwriting one under the same key), and changes no other key |
| `Bot.RemoverEfeito` | bot_v2.py:580 | `del` unbinds only that key |
| `Bot.MarcarEfeito` | bot_v2.py:704 | setting the flag changes only that key's entry, and only its flag |
| `Bot.PrimeiroAguardando` | bot_v2.py:1114-1118 | the scan returns the first entry of that user with the flag set, and returns nothing exactly when there is none |
| `Bot.AguardandoAposInserir` | bot_v2.py:1114-1118 | a freshly parked entry is never found by the scan |
| `Bot.Sugestao` | bot_v2.py:503-513 | the suggested envelope is always one of the user's; it is the envelope named after the category when there is one, else the one the AI picked, else the user's first envelope |
| `Bot.NomeOferecidoExiste` | bot_v2.py:507-510 | a name offered to the AI from the user's envelopes names an existing envelope |
| `Bot.RegistrarEfeito` | bot_v2.py:418-546 | rejection paths change nothing; a remembered payee adds exactly one transaction (next id, the extraction's amount, payee and date, created now, in the remembered envelope and categorised by its name), debits that envelope and leaves the pending dictionary, the payee memory and the configurations (so every closing day) alone; otherwise only the pending dictionary changes, under the new key and no other, and the suggested envelope is the user's |
| `Bot.GenericoSempreConfirma` | bot_v2.py:1001-1003 | a generic payee in the photo or text path is never charged directly |
| `Bot.Bot.RegistrarGasto` | bot_v2.py:418-546 | the handler's effect on the database and pending dictionary is exactly `RegistrarEm` |
| `Bot.ConfirmarEfeito` | bot_v2.py:557-580 | an unknown key changes nothing; a known key adds exactly one transaction with the pending entry's fields, categorised by the chosen envelope's name, debits that envelope, saves one payee row for the clicking user with the upper-cased payee, leaves the configurations (so every closing day) alone, and removes exactly that key |
| `Bot.ConfirmarUmaVez` | bot_v2.py:563-580 | confirming the same key a second time finds it expired |
| `Bot.MudarENovaEfeito` | bot_v2.py:621-713 | "change" changes nothing; "new" only sets the key's flag and leaves every other key unchanged |
| `Bot.CicloDeConfirmacao` | bot_v2.py:518-580 | parking a purchase and then pressing its Confirm button registers it in the suggested envelope and clears the key |
| `Bot.Bot.TratarCallback` | bot_v2.py:549-714 | the callback handler's effect is exactly `CallbackEm` |
| `Bot.CriarInlineEfeito` | bot_v2.py:872-912 | "name limit" creates one envelope with that name and limit, charges the pending amount to it, and clears the key |
| `Bot.Bot.CriarCaixinhaInline` | bot_v2.py:872-963 | the inline-creation effect is exactly `CriarInlineEm` |
| `Bot.TextoEscolheCaminho` | bot_v2.py:1113-1126 | an authorised text message goes to inline creation exactly when some entry of that user has the flag set |
| `Bot.Bot.ProcessarTexto` | bot_v2.py:1104-1126 | the text handler's effect is exactly `ProcessarTextoEm` |
| `Bot.Bot.BuscarAguardando` | bot_v2.py:1114-1118 | the scan loop returns the key of the first flagged entry of that user |
| `Texto.MaiusculasIgnoraCaixa` | database.py:171 | `upper()` ignores the letter case of its input; this is what makes the payee lookup case-insensitive |
| `Texto.SplitJoin` | bot_v2.py:559 | splitting a join of separator-free parts gives the parts back |
| `Texto.ParseIntIntParaTexto` | bot_v2.py:203 | `int(str(n)) == n` |
| `Texto.ParseFloatInteiro` | bot_v2.py:153 | `float(str(n)) == n` for an integer n |
| `Texto.RSplitEspacoNomePalavra` | bot_v2.py:877 | `rsplit(None, 1)` of "name word" gives [name, word] |
| `Calendario.DiasEntrePeloMenosUm` | lembretes_recorrentes.py:63-64 | `(a - b).days >= 1` exactly when at least 24 h lie between them |

## Left out

- The Telegram handlers' message text, emojis, keyboards and replies are transport. Only
  the decisions and the state changes behind them are modelled.
- The AI calls: model listing, file upload, `generate_content` and image opening. They are
  foreign I/O. Their answers are parameters: an optional text, and a JSON reader from text
  to an optional dict.
- APScheduler and asyncio wiring: `iniciar`, `parar`, `verificar_lembretes_sync` and
  `create_task`. These are timing and plumbing; the two sweeps are modelled as methods
  called with today's date.
- SQLAlchemy sessions, commits, rollbacks and locking. A single in-memory session; no
  concurrency.
- Floating point: money is `real`, so IEEE rounding, `:.2f` output and locale month
  names are not modelled.
- `listar_transacoes`, `deletar_caixinha`, `editar_limite_caixinha` and
  `renomear_caixinha` (database.py:134-165). They serve UI commands outside the modelled
  core.
- `gerar_relatorio_previsoes` (alertas.py:168-199) only formats text from functions that
  are modelled.
- `Banco.Database.ResetarTudoUsuario`: does not return the source's True/False. The
  False path is a database exception, which does not arise in memory.
- `Banco.Database.GetHistoricoConsolidado`: takes the start date `inicio` as a parameter.
  The caller computes it as today minus 30 × N days.
- `Banco.Database.GetHistoricoConsolidado`: visits the period's transactions in table
  order, not by `data_transacao` descending. The month order, the totals and the counts do
  not depend on that order, but the lists inside a bucket are in table order.
- `Banco.Database.BuscarEstabelecimentoConhecido`: its own contract states only
  soundness. The "nothing found exactly when there is no match" direction is stated on
  `Banco.PrimeiroEstabelecimento`, which it returns.
- `Banco.Transacao`: `dataTransacao` is always present. The column is nullable
  (database.py:47), but every modelled caller sets it, and the month and history queries
  (database.py:256-257, database.py:286) leave out rows without a date.
- `ConfiguracaoUsuario.atualizado_em` and the `criado_em` of configs and payees are not
  modelled. Nothing in the core reads them.
- `Texto.ParseInt` and `Texto.ParseFloat` accept an optional sign, decimal digits and (for
  floats) one decimal point, after stripping blanks. Python's `int()`/`float()` also accept
  underscores, exponents, "inf" and "nan"; these are not modelled.
- `Extracao.ParseDataISO` accepts exactly four year digits and one or two month and day
  digits, separated by "-", all ASCII. `strptime` with `%Y-%m-%d` also accepts a blank
  before a one-digit day (as in "2024-01- 5") and non-ASCII decimal digits; the model
  refuses both.
- `Texto.Maiusculas` and `Texto.Minusculas` map case only for ASCII and Latin-1 letters,
  by a shift of 32. Python's `upper()`/`lower()` follow full Unicode: "ß" becomes "SS",
  "ÿ" becomes "Ÿ", "µ" becomes "Μ", and letters outside Latin-1 change case. Here these are
  left unchanged.
- The clock: the source reads `datetime.now()` several times in one operation (the
  countdown, the message and the stamp of a reminder, for instance). The model takes a
  single `agora` per operation, so all of those reads see the same instant.
- The recurring-bill tables and their helpers (`listar_gastos_recorrentes`,
  `obter_ou_criar_pagamento_mes`, `atualizar_ultimo_lembrete`) are not defined in
  database.py. They are the abstract store `Lembretes.Recorrentes`, with these
  assumptions:
  - `valor_variavel` is not visible, so a bill counts as variable when it has no
    `valor_padrao`.
  - The month key of `obter_ou_criar_pagamento_mes` is taken to be the current month and
    year.
  - No paid-marking or amount-setting operation is modelled.
- `Lembretes.VerificarEEnviarLembretes`: an exception from the store (a missing envelope,
  an impossible due date) ends the sweep with `erro`, as the outer `try` at
  lembretes_recorrentes.py:126-178 does. The exact log output is not modelled.
- `Lembretes.ProcessarGasto`: the store's `atualizar_ultimo_lembrete` is taken never to
  raise. In the source it sits in the same `try` as the send
  (lembretes_recorrentes.py:161-169), so a failure there would leave a sent reminder
  unstamped and due again on the next sweep; in the model a send that goes through is
  always stamped.
- `Lembretes.ProcessarUsuario` returns the reminders of one user on their own; the caller
  appends them to the sweep's list, which is the same list the source's loop builds.
- `Agendador.VerificarResetAutomatico`: models a reset failure as a set of users whose
  reset raises, which ends the sweep. A failed notice is a set of users whose send raises,
  which only skips the notice.
- `Alertas.JanelaRecente`: the query's `criado_em >= now - N days` is compared in
  seconds, with `criado_em` assumed to be a valid timestamp. A transaction with an invalid
  timestamp is left out of the window.
- `audio_processor.py` and `gemini_processor.py`: any exception in the processors
  (upload, AI call, JSON parsing) maps to None. Only the JSON-parsing case is an explicit
  oracle; the others are the `resposta == None` case.

## Findings

| source | as written | input that shows it | evidently intended | confidence | as-written member | corrected member |
|---|---|---|---|---|---|---|
| lembretes_recorrentes.py:37-40 | the countdown subtracts *now, including the time of day* from midnight of the due date and takes `.days`, so it is one less than the calendar-day gap whenever now is past midnight | at 09:00 on 2024-03-08, a bill due on the 10th counts 1 instead of 2; at 09:00 on 2024-03-10 (the sweep is scheduled at 09:00, scheduler_v3.py:177), the due day itself counts -1, so the sweep skips it and "VENCIMENTO HOJE" is never sent on the due day | the number of calendar days from today to the due date (0 on the due day) | high (not executed) | `Lembretes.ComoEscritoContraExemplo` | `Lembretes.DiasAteVencimentoCalendario` |
| lembretes_recorrentes.py:72-73 | the reminder shows the due date as `dia/current month`, even when the due date is in the next month | on 2024-01-31, a bill due on the 2nd falls due on 2024-02-02 but the message says "2/01" | the month of the due date that the countdown used | high (not executed) | `Lembretes.MesExibidoContraExemplo` | `Lembretes.GerarMensagemLembrete` |
