# Payroll dashboard core, modelled in Dafny

This project models the data core of a payroll and expenditure ("folha de
pagamento" / "empenho") dashboard. The dashboard loads monthly JSON files of
payroll records, filters them, groups them into buckets (by competência,
year, lotação, vínculo, situação, função and nível), computes summary
statistics and rankings, and formats and validates what it shows. Two Python
scripts produce its inputs:

- one converts the payroll CSV exports into JSON;
- the other builds a compact dataset of pre-computed summaries.

The project is split into these modules:

- `Base`, `Seqs`, `Texto`, `Ordenacao` (`base.dfy`, `seqs.dfy`, `texto.dfy`, `ordenacao.dfy`): the vocabulary the rest builds on: `Option`/`Result`, filtering, mapping, JS `slice` bounds, `trim`/`toUpperCase`/digit extraction, and the sorts the source asks its library for. Each sort is proved sorted, a permutation and, where the source relies on it, stable.
- `Registros` (`registros.dfy`): a dashboard record. Amounts are JS numbers, so `NaN` is a possible value.
- `Lotacao` (`lotacao.dfy`): `utils/lotacao-mapping.js`: the unit table, its reverse index, the sub-unit table and `mapearLotacao` with its three special cases.
- `Agregacao` (`agregacao.dfy`): the reduction every `agregarPor…` function performs, written once. A reducer turns a record into an optional contribution. `Agregar` folds the contributions into buckets, mutating the accumulator, and records the order in which each key first appeared. That is the order a Python dict lists its keys in.
- `ChavesObjeto` (`chavesobjeto.dfy`): the order in which a JavaScript object lists its keys (section 10.1.11.1 of ECMA-262, OrdinaryOwnPropertyKeys). Keys that are array indices, such as years, come first in ascending numeric order. The other keys follow in insertion order.
- `Estatistica` (`estatistica.dfy`): the outlier-limited sums, the median, maximum and minimum over values in (0, 10 000 000], and "stable sort descending, take the first *n*".
- `Folha` (`folha.dfy`): `services/folha-pagamento.js`: loading, the nine filters, the seven reducers, the statistics, the yearly summaries, `topN` and `valoresUnicos`.
- `Empenho` (`empenho.dfy`): `services/empenho.js`: the same for expenditure records, including the "several contracts per person" filter.
- `Formatadores` (`formatadores.dfy`): `utils/formatters.js`
- `Validacoes` (`validacoes.dfy`): `utils/validations.js`
- `Paginacao` (`paginacao.dfy`): `utils/pagination.js`, as a class whose methods update its fields.
- `Conversor` (`conversor.dfy`): `payroll_to_json.py`
- `Resumo` (`resumo.dfy`): `generate_dashboard_dataset.py`

The source's accumulating loops are `method`s with `while` or `for`
loops. These are the file merges, the `forEach` counters, the CSV row loop,
the token loop, the `reduce` over records and the loops of
`validarCPF`/`validarRegistro`. Each method is proved equal to a
specification function. The loops that stop at the first match are
recursive functions whose contracts state that the match is the first one.
These are the header search, the pattern and keyword searches and
`detect_competencia`. The properties that matter are proved about the
specification functions. Aggregations:

- every record the reducer accepts is counted exactly once, so the bucket
  counts add up to the number of accepted records;
- the amounts are conserved: the bucket totals add up to the total over the
  records;
- each bucket holds exactly the contributions of its own records.

Filters:

- a record is kept exactly when it passes every filter that is set;
- filtering is idempotent.

Rankings are sorted, stable and dominate what they leave out. Pages
concatenate to the data. The CPF check digits accept a known valid number
and reject the same number with its last digit changed.

`payroll_to_json.py` lists the `PRO-REITORIA` pattern (line 60) after the
`REITORIA` pattern (line 56). Every spelling of the former contains the
latter, so the first match always wins and the converter never labels a
unit `PRO-REITORIA` (`Conversor.ProReitoriaNuncaDispara`,
`Conversor.LotacaoNuncaProReitoria`). The dashboard compensates:
`mapearLotacao` maps `REITORIA` back to `PROGESP` when the original text
names the people-management pro-rectorate (`utils/lotacao-mapping.js`
lines 108-113, `Lotacao.MapearReitoria`).

Where the dashboard reads a field that may be `null`, `undefined` or `''`,
the model uses `""`. Most reads only check such a field for truthiness, and
all three are falsy. The reads that tell the three apart are listed under
"Left out".

## Model

| member | source | states |
|---|---|---|
| `Lotacao.Chaves` | utils/lotacao-mapping.js:6-60 | The keys of `LOTACAO_MAPPING` are listed with no repeats. |
| `Lotacao.ChavesDaTabela` | utils/lotacao-mapping.js:6-60 | A text is a key of the list exactly when the table has an entry for it. |
| `Lotacao.MapearNulo` | utils/lotacao-mapping.js:94-95 | An empty label maps to `null`, and so does `SEM LOTAÇÃO` (the table's `null` entry at line 58). |
| `Lotacao.MapearSemOriginal` | utils/lotacao-mapping.js:94-136 | Without an original label no special case applies: the result is the table lookup. |
| `Lotacao.MapearPelaTabela` | utils/lotacao-mapping.js:133-136 | A key with a table value maps to that value, unless it is one of the two keys with a special case. |
| `Lotacao.MapearDesconhecida` | utils/lotacao-mapping.js:133-136 | A label the table does not know maps to itself. |
| `Lotacao.MapearProReitoria` | utils/lotacao-mapping.js:98-105 | `PRO-REITORIA` becomes `PROGESP` exactly when the original names people management. Otherwise it stays `PRO-REITORIA`. |
| `Lotacao.MapearReitoria` | utils/lotacao-mapping.js:108-113 | `REITORIA` becomes `PROGESP` exactly when the original names both the pro-rectorate and people management. Otherwise it stays `REITORIA`. |
| `Lotacao.MapearPessoasAcad` | utils/lotacao-mapping.js:117-122 | `PESSOAS ACAD` becomes `PROGESP` when the original names the pro-rectorate and people management. Otherwise it becomes `CGPA`. |
| `Lotacao.MapearExemplo` | utils/lotacao-mapping.js:8 | `PORTUGAL RAMALHO` maps to `HEPR`. |
| `Lotacao.TabelaPontoFixo` | utils/lotacao-mapping.js:6-60 | Every value of the table maps to itself, so mapping twice is mapping once. |
| `Lotacao.ValoresFixos1` | utils/lotacao-mapping.js:6-60 | The first three table values map to themselves. `ValoresFixos2`…`ValoresFixos12` do the same for the others. |
| `Lotacao.ReversoExato` | utils/lotacao-mapping.js:74-86 | The reverse index lists a key under value `v` exactly when the table maps it to `v`, and lists it once. |
| `Lotacao.ObterLotacoesOriginais` | utils/lotacao-mapping.js:144-146 | The result is never empty. |
| `Lotacao.OriginaisExatas` | utils/lotacao-mapping.js:144-146 | A value of the table gets its reverse entry, which holds every key mapping to it. Any other text gets itself. |
| `Lotacao.PrimeiroPrincipal` | utils/lotacao-mapping.js:153-160 | The parent found lists the unit among its children. When none is found, no parent lists it. |
| `Lotacao.PrincipalExato` | utils/lotacao-mapping.js:153-160 | `obterLotacaoPrincipal` returns `p` exactly when `p` lists the unit, and `null` exactly when no parent does. |
| `Lotacao.ObterSublotacoes` | utils/lotacao-mapping.js:167-169 | Only `PROGESP` and `REITORIA` have sub-units. `PROGESP` has five, among them `CGPA` and `SUDES`. |
| `Folha.Carimbados` | services/folha-pagamento.js:130-138 | Each record of a file is stamped with the file's competência, one for one and in order. |
| `Folha.MescladosSnoc` | services/folha-pagamento.js:117-141 | One more file appends its stamped records, or nothing when its `registros` is not an array. |
| `Folha.MescladosTamanho` | services/folha-pagamento.js:146 | The merged list has exactly the summed length of the files' `registros`. This is the count check the loader logs. |
| `Folha.MescladosComCompetencia` | services/folha-pagamento.js:130-138 | When every file names its competência, every merged record has one. |
| `Folha.AcrescentarArquivo` | services/folha-pagamento.js:117-141 | One iteration of the merge appends the file's stamped records and adds its record count. |
| `Folha.CarregarTodasFolhas` | services/folha-pagamento.js:109-155 | The loaded list is the merge of the files. Its length is the summed length of the files. |
| `Folha.FiltrarFolha` | services/folha-pagamento.js:180-273 | The result is the data filtered by the conjunction of the filters that are set: each record that passes them all, in order and as often as it occurs in the data. So it is a subsequence, a record is in it exactly when it passes every filter that is set, and with no filter set the data is returned unchanged. |
| `Folha.AceitaPorEtapas` | services/folha-pagamento.js:184-270 | Passing all filters is passing each step in turn. |
| `Folha.FiltroAno` | services/folha-pagamento.js:184-190 | The year filter keeps exactly the records whose competência's year field equals the trimmed year. |
| `Folha.FiltroSituacao` | services/folha-pagamento.js:242-250 | The situação filter keeps exactly the records whose normalised situação equals the upper-cased, trimmed filter. |
| `Folha.FiltroLotacao` | services/folha-pagamento.js:199-224 | The lotação filter keeps exactly the records whose mapped unit is the chosen one or one of its sub-units, or whose raw label is an original label of one of those. |
| `Folha.PessoaFolha` | services/folha-pagamento.js:317-321 | A person is identified by the trimmed CPF when there is one. A record with no CPF and a blank or totals-row name identifies nobody. |
| `Folha.ChaveAno` | services/folha-pagamento.js:344-348 | The year key is never empty and holds no `-`. |
| `Folha.ChaveVinculo` | services/folha-pagamento.js:500-502 | The vínculo key is never empty. |
| `Folha.Contabiliza` | services/folha-pagamento.js:280-688 | For any reducer: the bucket counts add up to the number of records it accepts, and no bucket has more unique people than records. |
| `Folha.AgregarPorCompetencia` | services/folha-pagamento.js:280-329 | The `reduce` equals the fold of the competência reducer. Every record within the outlier bound is counted once, and no bucket has more unique people than records. |
| `Folha.AgregarPorAno` | services/folha-pagamento.js:336-397 | The same for the year reducer. |
| `Folha.AgregarPorLotacao` | services/folha-pagamento.js:404-468 | The same for the lotação reducer. Records whose unit maps to `null` are skipped. |
| `Folha.AgregarPorVinculo` | services/folha-pagamento.js:475-534 | The same for the vínculo reducer. |
| `Folha.AgregarPorSituacao` | services/folha-pagamento.js:541-628 | The same for the situação reducer. |
| `Folha.AgregarPorFuncaoNivel` | services/folha-pagamento.js:635-688 | The same for the função-and-nível reducer. |
| `Folha.AgregarPorFuncao` | services/folha-pagamento.js:695-740 | The same for the função reducer. |
| `Folha.CompetenciasDoAno` | services/folha-pagamento.js:380-382 | Every competência listed under a year bucket is non-empty and belongs to that year. |
| `Folha.SituacaoIdempotente` | services/folha-pagamento.js:567-569 | Normalising a situação is idempotent, and its result is already trimmed and upper-case. |
| `Folha.NaoInformadoNormal` | services/folha-pagamento.js:567-569 | The `NÃO INFORMADO` default is already trimmed and upper-case. |
| `Folha.ChavesSituacao` | services/folha-pagamento.js:567-569 | Every situação bucket is the normalised situação of some record within the bound. |
| `Folha.FiltroPorSituacaoNormalizada` | services/folha-pagamento.js:242-250 | Filtering by a bucket's key selects exactly the records of that bucket. |
| `Folha.TotalDescontoLimitado` | services/folha-pagamento.js:797-848 | The accumulated discount is the outlier-limited sum of the numeric discounts of the rows that are not totals rows. |
| `Folha.ContarPessoas` | services/folha-pagamento.js:763-773 | The set of unique people holds exactly the keys some record identifies, and has at most one per record. |
| `Folha.SomarDescontos` | services/folha-pagamento.js:797-848 | The discount loop computes that limited sum. |
| `Folha.CalcularEstatisticas` | services/folha-pagamento.js:747-909 | No data gives all zeros. Otherwise it gives: the number of distinct people (never more than the records); the limited sums of the three amounts; the mean of net pay; and the median, maximum and minimum of the net pays in range. |
| `Folha.ResumirForma` | services/folha-pagamento.js:916-940 | A year summary sorts its bucket's competências and keeps the bucket's counts and totals. |
| `Folha.ResumirGrupos` | services/folha-pagamento.js:916-940 | The summary loop produces one summary per bucket. |
| `ChavesObjeto.OrdemDeEnumeracao` | services/folha-pagamento.js:920 | `Object.keys` lists the same keys as were added. The array indices come first, in ascending numeric order. The other keys follow in the order they were added. With no array index among the keys, the order is the insertion order. |
| `ChavesObjeto.DoisIndices` | services/folha-pagamento.js:920 | Two array indices are listed smaller first, whichever was added first. |
| `ChavesObjeto.IndiceAntes` | services/folha-pagamento.js:920 | An array index is listed before a key that is not one, whichever was added first. |
| `ChavesObjeto.AnosEmOrdem` | services/folha-pagamento.js:920 | Years added as `2026` then `2025` are listed as `2025`, `2026`. |
| `ChavesObjeto.AnoAntesDeTexto` | services/folha-pagamento.js:920 | Keys added as `NÃO INFORMADO` then `2025` are listed as `2025`, `NÃO INFORMADO`. |
| `Folha.CalcularEstatisticasAnuais` | services/folha-pagamento.js:916-940 | The keys come in `Object.keys` order: the years ascending, then the other keys in the order they were first seen. Each key has its bucket's summary. |
| `Folha.ResumoAnoCorreto` | services/folha-pagamento.js:916-940 | In each year summary: people ≤ records; the competências are strictly sorted; each of them belongs to that year. |
| `Folha.TopRegistros` | services/folha-pagamento.js:956-975 | The ranking keeps `slice(0, n)` many individual records, sorted by the chosen amount, largest first. |
| `Folha.TopRegistrosEstavel` | services/folha-pagamento.js:966-975 | Records with equal amounts keep their original order. |
| `Folha.TopRegistrosDominam` | services/folha-pagamento.js:966-975 | No individual record left out ranks above one kept. |
| `Folha.TopN` | services/folha-pagamento.js:949-982 | The ranking has the `slice` length and lists no totals row. Its values never increase. Row `i` is the display projection (`N/A` fallbacks for nome and lotação) of the `i`-th ranked record. |
| `Folha.Projetados` | services/folha-pagamento.js:976-981 | Each row carries its record's name and ranking value, in ranking order. |
| `Folha.ValoresUnicos` | services/folha-pagamento.js:990-994 | The distinct values are strictly sorted, and are exactly the non-empty values some record has. |
| `Empenho.CompetenciaDe` | services/empenho.js:43 | A non-empty month becomes `2025-` followed by the month padded to two digits. A missing month gives no competência. |
| `Empenho.AnoDaCompetencia` | services/empenho.js:43 | The year field of any such competência is `2025`. |
| `Empenho.NormalizarCampos` | services/empenho.js:24-44 | A raw row becomes a record with net = gross = the salary (0 when missing) and discount 0. The vínculo defaults to `EMPENHO`, and the lotação is copied to both lotação fields. |
| `Empenho.AchatadosSnoc` | services/empenho.js:19-48 | One more month appends its normalised records, or nothing when it is not an array. |
| `Empenho.AchatadosTamanho` | services/empenho.js:19-48 | Each row of an array-valued month yields exactly one record. |
| `Empenho.AchatadosNormalizados` | services/empenho.js:24-44 | Every loaded record has equal lotação fields, and either no competência or a `2025-` one. |
| `Empenho.CarregarTodosEmpenhos` | services/empenho.js:10-56 | The loop loads the normalised records of every month, in order, one per row. |
| `Empenho.FiltrarCampos` | services/empenho.js:68-121 | The field filters keep the data filtered by their conjunction: each record passing every filter that is set, in order and as often as it occurs. So the result is a subsequence, and a record is kept exactly when it passes every filter that is set. |
| `Empenho.AceitaPorEtapas` | services/empenho.js:68-121 | Passing the field filters is passing each step in turn. |
| `Empenho.CamposJaFiltrados` | services/empenho.js:68-121 | Records that already pass go through unchanged. |
| `Empenho.ChavePessoa` | services/empenho.js:126-146 | A person is keyed by the trimmed CPF, or else the trimmed name. The key is never empty. |
| `Empenho.MultiplosVinculos` | services/empenho.js:124-162 | The pass keeps exactly the records of people with more than one distinct `matricula_vinculo` pair. |
| `Empenho.ParesPreservados` | services/empenho.js:124-162 | A person with several contracts keeps all of them. |
| `Empenho.MultiplosIdempotente` | services/empenho.js:124-162 | A second pass changes nothing. |
| `Empenho.ParesPorPessoaCorreto` | services/empenho.js:126-146 | The map has exactly the person keys seen, and maps each to that person's distinct contracts. |
| `Empenho.AgruparVinculos` | services/empenho.js:126-146 | The `forEach` builds that map. |
| `Empenho.FiltrarMultiplosVinculos` | services/empenho.js:149-161 | The set of such people and the final filter compute the pass. |
| `Empenho.FiltrarEmpenho` | services/empenho.js:64-165 | Without the flag the result is the data filtered by the field filters' conjunction, multiplicity included. With the flag, that result is filtered again, keeping the records of people with several contracts in it. Either way it is a subsequence of the data. |
| `Empenho.FiltrarEmpenhoIdempotente` | services/empenho.js:64-165 | Filtering twice with the same keys is filtering once. |
| `Empenho.FiltroLotacao` | services/empenho.js:75-77 | The lotação filter is equality on the record's own lotação, with no unit mapping. |
| `Empenho.PessoaEmpenho` | services/empenho.js:208-217 | A person is identified by an eleven-digit CPF, or else by a non-blank name that is not the totals row. |
| `Empenho.ChaveLotacao` | services/empenho.js:250 | The lotação key is never empty. |
| `Empenho.AgregarPorCompetencia` | services/empenho.js:172-225 | The `reduce` equals the fold of the reducer. Every record whose net pay is within the bound is counted once, and no bucket has more unique people than records. |
| `Empenho.AgregarPorLotacao` | services/empenho.js:232-286 | The same for the lotação reducer. |
| `Empenho.AgregarPorVinculo` | services/empenho.js:293-349 | The same for the vínculo reducer. |
| `Empenho.ChavesCompetencia` | services/empenho.js:190 | Each bucket is the competência of some record within the bound, or `NÃO INFORMADO` for a record without one. |
| `Empenho.VinculoContado` | services/empenho.js:381-402 | A contract counts exactly for a non-totals row with a matrícula, and is that trimmed matrícula. |
| `Empenho.ContarPessoasEVinculos` | services/empenho.js:381-402 | The loop collects exactly those people and contracts, at most one each per record. |
| `Empenho.CalcularEstatisticas` | services/empenho.js:356-475 | No data gives all zeros. Otherwise it gives: the distinct people, the records, the limited sums of the three amounts, the mean of net pay, and the median, maximum and minimum. People and contracts never exceed records. |
| `Empenho.TopN` | services/empenho.js:484-515 | The ranking has the `slice` length and lists no totals row. Its values never increase. Row `i` is the display projection (lotação falling back on `lotacao_original`, then `N/A`) of the `i`-th ranked record. |
| `Agregacao.Agregar` | services/folha-pagamento.js:280-329 | The in-place `reduce` equals the functional fold, and leaves the buckets and their order consistent. |
| `Agregacao.BucketExato` | services/folha-pagamento.js:300-325 | A key has a bucket exactly when some record contributes to it. The bucket's label is the first record's. Its count, amounts, people, names (capped if asked), distinct competências and leave reasons are those of its own records. |
| `Agregacao.OrdemDeInsercao` | services/folha-pagamento.js:280-329 | Buckets are listed in the order their keys are first seen. |
| `Agregacao.UnicosLimitados` | services/folha-pagamento.js:317-321 | A bucket never has more unique people than records. |
| `Agregacao.ContribuidasOrigem` | services/folha-pagamento.js:280-329 | Every contribution of a bucket carries its key and comes from a record of the data. |
| `Agregacao.ChaveDeOrigem` | services/folha-pagamento.js:280-329 | Every bucket key is the key of an accepted record. |
| `Agregacao.CompetenciaDeOrigem` | services/folha-pagamento.js:380-382 | Every competência listed in a bucket was added by a record of that bucket. |
| `Agregacao.TotalContagens` | services/folha-pagamento.js:280-329 | The bucket counts add up to the number of accepted records. |
| `Agregacao.TotaisConservados` | services/folha-pagamento.js:300-316 | Bucket net, gross and discount totals add up to the totals of the accepted records. |
| `Agregacao.Conservacao` | services/folha-pagamento.js:300-316 | Any bucket field that starts at zero and adds a per-record amount sums to the total of that amount. |
| `Agregacao.ContagensPorFiltro` | services/folha-pagamento.js:293-296 | When the reducer skips exactly the records failing a condition, the counts add up to the records meeting it. |
| `Estatistica.Posicoes` | services/folha-pagamento.js:868-896 | With no value in range the median, maximum and minimum are 0. Otherwise the maximum and minimum are values in range, and bound every value in range. |
| `Estatistica.PosicoesPorOrdenacao` | services/folha-pagamento.js:870-896 | The result is the median, maximum and minimum of any ascending arrangement of the values in (0, 10 000 000], because there is only one such arrangement. |
| `Estatistica.MedianaImpar` | services/folha-pagamento.js:889-893 | Net pays 100, 200 and 300 give the median 200, the maximum 300 and the minimum 100. |
| `Estatistica.MedianaPar` | services/folha-pagamento.js:889-893 | Net pays 200 and 100 give the median 150, the mean of the two middle values. |
| `Estatistica.PosicoesOrdenadas` | services/folha-pagamento.js:882-896 | On a sorted list the minimum is the first element and the maximum the last. The median is the middle element of an odd-length list and the mean of the two middle elements of an even-length one. It lies between the minimum and the maximum. |
| `Estatistica.OrdenadosNaFaixa` | services/folha-pagamento.js:868-872 | The sorted list holds exactly the values in (0, 10 000 000]. |
| `Estatistica.SomaLimitadaConcat` | services/folha-pagamento.js:777-794 | Limited sums of two consecutive runs add up. |
| `Estatistica.Melhores` | services/folha-pagamento.js:966-975 | `sort` then `slice(0, n)` keeps min(n, length) elements, sorted largest first, drawn from the input without duplication. |
| `Estatistica.MelhoresDominam` | services/folha-pagamento.js:966-975 | Nothing left out beats anything kept. |
| `Estatistica.MelhoresEstavel` | services/folha-pagamento.js:966-975 | Among equal keys the kept elements are the first ones, in input order. |
| `Estatistica.TopFiltrado` | services/folha-pagamento.js:956-975 | Filter, sort and slice give the `slice` length, only elements passing the filter, sorted largest first. |
| `Formatadores.FormatarCPF` | utils/formatters.js:29-35 | Eleven digits are masked as `ddd.ddd.ddd-dd`. Anything else is returned unchanged. |
| `Formatadores.FormatarCPFDigitos` | utils/formatters.js:29-35 | Stripping the mask gives the eleven digits back. |
| `Formatadores.FormatarCompetencia` | utils/formatters.js:42-55 | A text without `-` is returned unchanged, and one with it is formatted with `/`. |
| `Formatadores.CompetenciaFormatada` | utils/formatters.js:42-55 | `YYYY-MM` with a month 1..12 becomes the month's name, `/`, and the year. |
| `Formatadores.CompetenciaMesInvalido` | utils/formatters.js:42-55 | A month outside 1..12 falls back to the raw month text. |
| `Formatadores.FormatarCompetenciaCurta` | utils/formatters.js:62-75 | A text without `-` is returned unchanged, and one with it is formatted with `/`. |
| `Formatadores.CompetenciaCurtaFormatada` | utils/formatters.js:62-75 | `YYYY-MM` becomes the three-letter month, `/`, and the year without its first two digits. |
| `Formatadores.CompetenciasOrdenadas` | utils/formatters.js:82-98 | The distinct non-empty competências, strictly sorted. |
| `Formatadores.ExtrairPeriodoDados` | utils/formatters.js:82-110 | When every record that has a competência has the same one, the period is that competência, formatted. |
| `Formatadores.PeriodoUnico` | utils/formatters.js:101-103 | With exactly one distinct competência, the period is that competência, formatted. |
| `Formatadores.PeriodoVazio` | utils/formatters.js:82-110 | The period is empty exactly when no record has a competência. |
| `Formatadores.PeriodoIntervalo` | utils/formatters.js:82-110 | With several competências the period is the formatted smallest, ` - `, and the formatted largest. The smallest is below all the others and the largest above them. |
| `Validacoes.DigitoVerificador` | utils/validations.js:73-86 | A check digit is between 0 and 9. |
| `Validacoes.ValidarCPF` | utils/validations.js:61-89 | The loop accepts exactly the digit strings that are valid CPFs: eleven digits, not all equal, both check digits right. |
| `Validacoes.CpfIgnoraPontuacao` | utils/validations.js:62 | Punctuation is ignored. |
| `Validacoes.CpfRejeitado` | utils/validations.js:64-70 | A wrong length or a repeated digit is rejected. |
| `Validacoes.CpfValidoExemplo` | utils/validations.js:61-89 | `52998224725` is valid. |
| `Validacoes.CpfInvalidoExemplo` | utils/validations.js:61-89 | `52998224724` is not. |
| `Validacoes.ValidarRegistro` | utils/validations.js:20-54 | The error list has one message per failed check, in the order the checks run. |
| `Validacoes.FalhaListada` | utils/validations.js:20-54 | A check is reported exactly when it fails. |
| `Validacoes.FalhaUnica` | utils/validations.js:20-54 | No check is reported twice. |
| `Validacoes.FalhasVazias` | utils/validations.js:20-54 | No error is reported exactly when: the name is non-blank; the CPF has eleven digits; the three amounts are non-negative numbers; and net pay is within 0.01 of gross minus discount. |
| `Validacoes.TemErrosAposValidar` | utils/validations.js:11-13 | A record stamped with its own errors is flagged exactly when it is invalid. |
| `Paginacao.TotalPaginas` | utils/pagination.js:41-43 | `ceil(total / perPage)`: the least page count that covers all items. |
| `Paginacao.Pagina` | utils/pagination.js:31-35 | A page holds at most `perPage` items, and is the slice `[(p-1)·perPage, p·perPage)` of the data. |
| `Paginacao.PaginaExiste` | utils/pagination.js:31-43 | An existing page is never empty. |
| `Paginacao.PaginasCobrem` | utils/pagination.js:31-43 | Pages 1..totalPages concatenate to the whole data. |
| `Paginacao.Limitar` | utils/pagination.js:49-58 | The clamped page is within 1..total when there are pages. A page already in range is kept. |
| `Paginacao.JanelaBotoes` | utils/pagination.js:108-114 | The button window contains the current page, stays within the pages and has min(total, 7) buttons. |
| `Paginacao.Pagination.constructor` | utils/pagination.js:7-14 | A zero page size becomes 10. The component starts on page 1 with no data. |
| `Paginacao.Pagination.SetData` | utils/pagination.js:20-25 | Replaces the data, sets the count to its length and returns to page 1. |
| `Paginacao.Pagination.GetTotalPages` | utils/pagination.js:41-43 | The page count covers the items, with no page to spare. |
| `Paginacao.Pagination.GetCurrentPageData` | utils/pagination.js:31-35 | The current page's slice of the data. |
| `Paginacao.Pagination.GoToPage` | utils/pagination.js:49-58 | Moves to the clamped page and changes nothing else. |
| `Paginacao.Pagination.NextPage` | utils/pagination.js:63-65 | Moves one page forward, and stays put on the last page. |
| `Paginacao.Pagination.PrevPage` | utils/pagination.js:70-72 | Moves one page back, and stays put on page 1. |
| `Paginacao.Pagination.PageWindow` | utils/pagination.js:108-114 | The window `render` draws contains the current page and has at most 7 buttons. |
| `Conversor.SemNbspForma` | payroll_to_json.py:12 | No no-break space survives, and text without one is unchanged. |
| `Conversor.ColapsarCompacto` | payroll_to_json.py:13 | Collapsing whitespace leaves single plain spaces only. It keeps emptiness and a trailing space. |
| `Conversor.ColapsarFixo` | payroll_to_json.py:13 | Compact text is left unchanged. |
| `Conversor.NormalizarTextoForma` | payroll_to_json.py:9-15 | `None` gives `""`. The result has no no-break space, is trimmed and compact. |
| `Conversor.NormalizarTextoIdempotente` | payroll_to_json.py:9-15 | Normalising twice is normalising once. |
| `Conversor.NormalizarCpf` | payroll_to_json.py:35-37 | The result is the digits of the input, and only digits. |
| `Conversor.NormalizarCpfIdempotente` | payroll_to_json.py:35-37 | A normalised CPF normalises to itself. |
| `Conversor.PadronizarForma` | payroll_to_json.py:27 | No comma survives the pt-BR to decimal rewrite, and text with neither separator is unchanged. |
| `Conversor.PadronizarExemplo` | payroll_to_json.py:27 | `1.234,56` becomes `1234.56`. |
| `Conversor.ValorMonetarioCasos` | payroll_to_json.py:23-32 | Empty and `-` read as 0. Otherwise the value is `float()` of the text with `.` dropped and `,` turned into `.`. |
| `Conversor.ErroMonetarioUnico` | payroll_to_json.py:29-32 | An amount adds at most one error, and adds one exactly when it does not convert. |
| `Conversor.ParseMonetary` | payroll_to_json.py:23-32 | Returns the value, or 0 on failure, and appends that error. |
| `Conversor.PrimeiroPadraoCorreto` | payroll_to_json.py:71-73 | The chosen pattern matches, and no earlier one does. |
| `Conversor.PrimeiroPadraoVence` | payroll_to_json.py:71-73 | The first matching pattern decides the label. |
| `Conversor.ProReitoriaNuncaDispara` | payroll_to_json.py:56-73 | The `PRO-REITORIA` pattern is never the first match, because `REITORIA` always matches before it. |
| `Conversor.ReitoriaAbsorve` | payroll_to_json.py:56-73 | A text mentioning `REITORIA`, and matching no earlier pattern, is labelled `REITORIA`. |
| `Conversor.LotacaoNuncaProReitoria` | payroll_to_json.py:67-88 | No input is ever labelled `PRO-REITORIA`. |
| `Conversor.PalavrasForma` | payroll_to_json.py:74 | `split()` yields non-empty runs without whitespace taken from the text. |
| `Conversor.MantidosMembro` | payroll_to_json.py:75-78 | A kept token is one of the words, and is neither a stop word nor made of digits only. |
| `Conversor.ManterTokens` | payroll_to_json.py:74-78 | The loop keeps exactly those tokens, in order. |
| `Conversor.PrimeiraChaveCorreta` | payroll_to_json.py:81-85 | The token chosen holds a keyword, and no earlier one does. |
| `Conversor.JuntarForma` | payroll_to_json.py:86-88 | Joining words gives a trimmed, non-empty text, which contains a space when there are two words or more. |
| `Conversor.EscolhaOrigem` | payroll_to_json.py:81-88 | The label chosen from the tokens is non-empty, and is a token or a join of tokens. |
| `Conversor.PorTokensOrigem` | payroll_to_json.py:74-88 | The token label of a non-empty text is non-empty and drawn from the text. |
| `Conversor.LotacaoPeloPadrao` | payroll_to_json.py:67-88 | The label is the first matching pattern's, or else the token rule's. |
| `Conversor.NormalizarLotacao` | payroll_to_json.py:67-88 | The function computes that label. |
| `Conversor.RotuloPorTokens` | payroll_to_json.py:74-88 | The token loop computes the token label. |
| `Conversor.LotacaoVazia` | payroll_to_json.py:67-70 | The label is empty exactly when the normalised text is. |
| `Conversor.PrimeiraData` | payroll_to_json.py:93-94 | Finds the leftmost `MM/YYYY` match, or reports there is none. |
| `Conversor.CompetenciaEm` | payroll_to_json.py:95-96 | A match gives a `YYYY-MM` text. |
| `Conversor.SemDataPadrao` | payroll_to_json.py:91-97 | With no date in the first ten lines the result is `0000-00`. |
| `Conversor.PrimeiraDataVence` | payroll_to_json.py:91-97 | The first date of the first line holding one decides the competência. |
| `Conversor.IndiceCabecalhoCorreto` | payroll_to_json.py:104-107 | The header is the first row whose first cell is `NOME`. |
| `Conversor.CabecalhoCelula` | payroll_to_json.py:107 | Column `j` is the normalised name of header cell `j`. |
| `Conversor.PreenchidaForma` | payroll_to_json.py:114 | A short row is padded to the header's width, and its cells are kept. |
| `Conversor.ColunaUltima` | payroll_to_json.py:114-127 | A column lookup gives the cell under the last header cell of that name, or the default. |
| `Conversor.ColunaAlemDaLinha` | payroll_to_json.py:114 | A column the row is too short to reach reads as `""`. |
| `Conversor.DividirNoPrimeiroCabecalho` | payroll_to_json.py:104-111 | The data rows are those after the first header row. They are numbered from the header's line + 2. |
| `Conversor.CsvFalhaSemCabecalho` | payroll_to_json.py:104-107 | Conversion fails exactly when no row is a header. It then logs no errors. |
| `Conversor.ConvertidosPorLinha` | payroll_to_json.py:108-145 | One record per row that is not blank. |
| `Conversor.ErrosNoMaximoTres` | payroll_to_json.py:115-127 | At most three errors per row that is not blank. |
| `Conversor.CsvLimites` | payroll_to_json.py:100-146 | A successful conversion gives one record per non-blank data row, and at most three errors each. |
| `Conversor.ConverterRegistro` | payroll_to_json.py:115-145 | A data row gives its record and appends its amount errors. |
| `Conversor.ConverterDados` | payroll_to_json.py:108-145 | The row loop gives the records and errors of the data rows, in order. |
| `Conversor.ParseCsv` | payroll_to_json.py:100-146 | `parse_csv` returns the conversion and appends exactly its errors. |
| `Resumo.EstamparCorreto` | generate_dashboard_dataset.py:18-19 | Stamping sets `competencia` to the file's and leaves every other field alone. |
| `Resumo.CarregadosTamanho` | generate_dashboard_dataset.py:12-21 | No record is lost or added by the merge. |
| `Resumo.CarregadosCompetencia` | generate_dashboard_dataset.py:12-21 | Every merged record is some file's record, stamped with that file's competência. |
| `Resumo.LoadRecords` | generate_dashboard_dataset.py:12-21 | The loop gives the merged, stamped records of all files, in order. |
| `Resumo.Aggregate` | generate_dashboard_dataset.py:24-45 | The loop equals the fold of the `aggregate` reducer, with names capped at 5. |
| `Resumo.ChaveAgregadaCorreta` | generate_dashboard_dataset.py:27 | The key is the field's value, or `SEM` plus the upper-cased label when it is missing or empty. |
| `Resumo.SemLotacao` | generate_dashboard_dataset.py:27 | For label `lotação` that default is `SEM LOTAÇÃO`. |
| `Resumo.AggregateBucket` | generate_dashboard_dataset.py:24-45 | A key has a bucket exactly when some record has it. The bucket's label is the key, its count the number of its records, and its names the first five of theirs. |
| `Resumo.AggregateContagens` | generate_dashboard_dataset.py:24-45 | The counts add up to the number of records. |
| `Resumo.AggregateTotais` | generate_dashboard_dataset.py:40-42 | The bucket amounts add up to the amounts of all records. |
| `Resumo.AggregateFuncaoNivel` | generate_dashboard_dataset.py:48-69 | The loop equals the fold of the função-and-nível reducer. |
| `Resumo.FuncaoNivelBucket` | generate_dashboard_dataset.py:51-53 | Each bucket key is its two labels joined by `\|\|`, both taken from one record. |
| `Resumo.FuncaoNivelContagens` | generate_dashboard_dataset.py:48-69 | The counts add up to the number of records. |
| `Resumo.SummarizeCompetencias` | generate_dashboard_dataset.py:90-102 | The loop equals the fold of the competência reducer. |
| `Resumo.CompetenciasResumidas` | generate_dashboard_dataset.py:90-102 | The counts add up to the number of records. A key has a bucket exactly when a record has it, and the bucket is labelled with its key. |
| `Resumo.SemCompetenciaAgrupada` | generate_dashboard_dataset.py:93 | A record without a competência lands in the `0000-00` bucket. |
| `Resumo.Selecionados` | generate_dashboard_dataset.py:73-75 | The `slice` length of records, sorted by the amount, largest first. |
| `Resumo.TopN` | generate_dashboard_dataset.py:72-87 | The list has the `slice` length. Its values never increase. |
| `Resumo.TopNEntradas` | generate_dashboard_dataset.py:75-85 | Each entry is the projection of a record, carrying that record's amount. For n ≥ 0 there are min(n, length) entries. |
| `Resumo.TopNDominam` | generate_dashboard_dataset.py:73-75 | A record left out has an amount no larger than any listed one. |
| `Resumo.TopNEstavel` | generate_dashboard_dataset.py:73-75 | Among equal amounts the listed records are the first ones, in input order. |
| `Resumo.TopNCompleto` | generate_dashboard_dataset.py:73-75 | With n at least the number of records, every record is listed. |

## Left out

- Reading files, `fetch`, the DOM and `console` output are left out. The loaders take the parsed file contents as parameters. This covers the file index, the HTML and the progress messages that `render` and the Python `main`s produce.
- `server.js`, the pages, the components and the remaining utilities (`debounce`, `feedback`, `pdf`) are not part of this model.
- Amounts are exact reals. Floating-point rounding, `Math.round`, `toFixed` and Python's `round(…, 2)` are not modelled.
- Python's `float()` and `remove_accents` are parameters of the converter. They are not modelled.
- JS `localeCompare` and `Intl` number formatting are modelled by plain code-point order and are not modelled at all, respectively. JS's default `sort()` compares UTF-16 code units, and the model compares code points: the two orders differ only when a string holds a character outside the Basic Multilingual Plane.
- Case mapping covers ASCII and Latin-1 letters. `Texto.UpperChar` and `Texto.LowerChar` pair U+00E0–U+00FE with U+00C0–U+00DE, except `÷` and `×`. Lost are `ß`, which JS and Python upper-case to `SS`, `ÿ` and `µ` (U+00B5), whose capitals (`Ÿ`, and `Μ` U+039C) lie outside Latin-1, and every other script. The whitespace class is ASCII whitespace plus the no-break space, not the full Unicode class of JS `\s` and Python `str.split`.
- `Folha.AgregarPorCompetencia`: a competência that is `undefined`, `null` or `''` becomes the key `"undefined"`, `"null"` or `""`, three separate buckets (services/folha-pagamento.js:298-300). The model reads all three as `""` and merges them into one bucket.
- `Folha.PassaNome`: with `buscaNome` set, a record whose `nome` is `null` makes `r.nome.toLowerCase()` throw a `TypeError` (services/folha-pagamento.js:268). The model reads the name as `""` and drops the record instead.
- `Folha.AgregarPorAno`: every `agregarPor…` reducer skips an element of `registros` that is `null` or not an object (services/folha-pagamento.js:283-285). Such an element cannot be written in the model, whose records are all well-formed.
- The library sorts are modelled as stable insertion sorts. Only their results (sorted, a permutation, stable) matter to the model.
- `Resumo.Aggregate`: a `nome` field that holds `None` appends `None` in the source. The model has no `None` name, so it appends `""`.
- `Resumo.LoadRecords`: the source stamps the input dictionaries in place. The model returns new records. A `registros` that is `None` makes the Python loader raise, and the model treats it as empty.
- `Resumo.TopN`: a ranking key equal to one of the projected field names (`nome`, `cpf`, …) overwrites that entry of the output row. This is not modelled.
- `Resumo.FuncaoNivelBucket`: a função containing `\|\|` can make two different pairs share a key. The bucket then carries the labels of one of the records with that key. The lemma states only that its labels are some record's pair, without excluding the collision.
- `Paginacao.Pagination`: the container element, the `onPageChange` callback and the HTML that `render` writes are left out. Only the page-number window of `render` is modelled.
- `badgeErros` in `utils/validations.js` only produces HTML, and is left out.
- `Validacoes.ValidarRegistro`: the messages' number formatting is a parameter.
