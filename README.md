# Kubernetes resources viewer: the resource projector

The viewer is a single Flask handler, `index()` in `app/app.py`, that lists
the Pods, Services, Deployments, Ingresses, ConfigMaps and Secrets of one
namespace and shows them as one HTML page. This project models what that
handler computes. It takes the results of the six list calls as inputs and
projects each listed object into a flat display record. It then assembles
the six record lists into a page, or into an error response when a call or
a projection fails.

Layout:

- `wrappers.dfy`, module `Wrappers`: `Option` (a field the client may leave as `None`) and `Result`.
- `text.dfy`, module `Text`: decimal text the way Python's `str()` writes a number, and parsers that read it back. The "ready" column is `"R/C"`, and `ParseRatio` recovers both counts from it.
- `age.dfy`, module `Age`: the coarse pod age, `"<N>s"`, `"<N>m"` or `"<N>h"`.
- `cluster.dfy`, module `Cluster`: the cluster objects as the Kubernetes Python client returns them, restricted to the fields the handler reads. Also the `Failure` a request can end in.
- `views.dfy`, module `Views`: the six display records. A `Cell` is either the literal `'N/A'` or a value.
- `records.dfy`, module `Records`: one pure function per kind that derives a record from an object, plus lemmas stating what each record field means.
- `projector.dfy`, module `Projector`: the six `for` loops that append records to a list, as methods proved against element-wise specifications. It also holds the ingress filter and its lemmas.
- `page.dfy`, module `Page`: the page as six sections, and the handler `Index`, which short-circuits on the first failure.

Behaviour of app/app.py that the model keeps:

- An ingress's service and port stay `'N/A'` when the first rule's HTTP path list is absent or empty (app/app.py:392).
- A service shows `'N/A'` when its port list is absent or empty (app/app.py:365).
- An ingress whose first path has a non-service backend fails on reading the service's name (app/app.py:393). The catch-all handler then turns the whole request into an error response (app/app.py:437-438). The model keeps this as the `NoServiceBackend` failure.
- Times are integers in microseconds, the resolution of Python's datetime. A pod's age in seconds is the elapsed time truncated toward zero (app/app.py:345-347), so a creation stamp 2.4 s ahead of the clock shows "-2s".

## Model

| member | source | states |
|---|---|---|
| Text.NatToString | app/app.py:356 | the decimal text of a count is non-empty, all digits, and has no leading zero |
| Text.IntToString | app/app.py:347 | decimal text of an integer with a leading minus for negatives; Text.ParseIntToString reads it back |
| Text.Ratio | app/app.py:356 | two counts separated by a slash; Text.ParseRatioOfRatio reads both back |
| Text.ParseNatToString | app/app.py:356 | the decimal text of every count parses back to that count |
| Text.NatToStringInjective | app/app.py:356 | distinct counts are rendered as distinct text |
| Text.ParseIntToString | app/app.py:347 | the text of every integer, negative ones included, parses back to it |
| Text.ParseRatioOfRatio | app/app.py:356 | `"R/C"` splits at its slash back into exactly R and C |
| Age.ElapsedSeconds | app/app.py:345-347 | whole seconds between the creation stamp and the clock, truncated toward zero: within one second of the exact time and never further from zero |
| Age.BucketOfWholeSeconds | app/app.py:345-351 | the bucket of the truncated whole seconds equals the bucket picked from the exact microsecond time by the comparisons with 60 s and 3600 s and the truncating divisions |
| Age.AheadOfClock | app/app.py:345-347 | a clock 2.4 s behind the creation stamp gives -2 seconds and the text "-2s" |
| Age.AgeText | app/app.py:346-351 | the text of BucketOf; Age.ParseAgeText reads back exactly that bucket |
| Age.BucketOf | app/app.py:346-351 | the seconds bucket is used exactly below 60 s and shows the elapsed seconds; the minutes bucket is used exactly on [60, 3600) and shows floor(N/60) in 1..59; otherwise hours, floor(N/3600) >= 1; each amount truncates, so amount*unit <= N < (amount+1)*unit |
| Age.ParseAgeText | app/app.py:346-351 | the age text reads back as exactly the bucket of the elapsed time |
| Age.AgeMonotone | app/app.py:346-351 | a longer elapsed time never shows a smaller age |
| Age.AgeBoundaries | app/app.py:346-351 | 59 s gives "59s", 60 gives "1m", 3599 gives "59m", 3600 gives "1h", 7199 gives "1h" |
| Records.PodViewOf | app/app.py:341-359 | the pod record; its meaning is stated by Records.PodViewMeaning |
| Records.ReadyCount | app/app.py:343 | the ready count is at most the number of reported statuses; it equals that number exactly when all are ready, and is 0 exactly when none is |
| Records.RestartTotal | app/app.py:344 | the restart total is at least every container's restart count, and is 0 exactly when every count is 0 (so 0 for no statuses) |
| Records.ReadyCountCountsTrue | app/app.py:343 | the ready count equals the number of `true` ready flags among the reported statuses |
| Records.ReadyCountAppend | app/app.py:343 | the ready count of a split status list is the sum of the counts of its parts |
| Records.RestartTotalAppend | app/app.py:344 | the restart total of a split status list is the sum of the totals of its parts |
| Records.PodViewMeaning | app/app.py:341-359 | a pod record keeps name and phase; its ready text reads back as (statuses that are ready, declared container count); restarts are the total over reported statuses; the age text reads back as the bucket of the whole seconds from creation to now, truncated toward zero; with no statuses reported it reads "0/C" with 0 restarts |
| Records.ServicePortOf | app/app.py:365 | the service's port cell; stated by Records.ServicePortMeaning and Records.ServicePortIgnoresLater |
| Records.ServiceViewOf | app/app.py:366-371 | the service record: name, type and cluster IP copied, port from ServicePortOf; stated by Records.ServicePortMeaning |
| Records.ServicePortMeaning | app/app.py:365 | the port is "N/A" exactly when the port list is absent or empty, and otherwise is the first entry's port |
| Records.ServicePortIgnoresLater | app/app.py:365 | entries after the first port do not change the record |
| Records.DeploymentViewOf | app/app.py:376-382 | the deployment record; stated by Records.DeploymentViewMeaning |
| Records.DeploymentViewMeaning | app/app.py:377-382 | ready reads back as (ready replicas, or 0 when unreported; spec replicas); updated and available are the reported counts, or 0 when unreported |
| Records.DeploymentNotYetReady | app/app.py:379 | spec replicas 3 with no ready count reported gives "0/3" |
| Records.IngressStep | app/app.py:388-401 | what one ingress contributes: nothing, a record, or a failure; stated by Records.IngressDropped, Records.IngressFails, Records.IngressViewMeaning and Records.IngressIgnoresLaterRules |
| Records.IngressDropped | app/app.py:388 | an ingress contributes no record exactly when its rule list is absent or empty |
| Records.IngressFails | app/app.py:392-395 | an ingress fails the request exactly when it has rules and paths and its first path's backend has no service |
| Records.IngressViewMeaning | app/app.py:388-401 | an ingress record comes from an ingress with rules; host is the first rule's; service is "N/A" exactly without a non-empty path list, else the first backend's service name; port is "N/A" exactly when there are no paths or that backend declares no port, else its number |
| Records.IngressIgnoresLaterRules | app/app.py:389-395 | rules after the first do not change what an ingress contributes |
| Records.KeyCount | app/app.py:409 | the key count of a data mapping; stated by Records.KeyCountMeaning |
| Records.ConfigMapViewOf | app/app.py:406-410 | the ConfigMap record: name and key count |
| Records.SecretViewOf | app/app.py:415-420 | the secret record: name, type and key count; stated by Records.SecretViewMeaning |
| Records.KeyCountMeaning | app/app.py:409 | the key count is the size of the data mapping, 0 for a null mapping, and 0 exactly when the mapping is null or empty |
| Records.ThreeKeys | app/app.py:409 | a mapping with three entries has three keys |
| Records.SecretViewMeaning | app/app.py:416-420 | a secret record keeps the name and type unchanged and counts keys exactly as for a ConfigMap |
| Projector.ProjectPods | app/app.py:340-359 | one pod record per listed pod, in input order, each derived from its own pod and carrying its name |
| Projector.ProjectServices | app/app.py:363-371 | one service record per listed service, in input order, each derived from its own service and carrying its name |
| Projector.ProjectDeployments | app/app.py:375-382 | one deployment record per listed deployment, in input order, each derived from its own deployment and carrying its name |
| Projector.ProjectConfigMaps | app/app.py:405-410 | one ConfigMap record per listed ConfigMap, in input order, each derived from its own ConfigMap and carrying its name |
| Projector.ProjectSecrets | app/app.py:414-420 | one secret record per listed secret, in input order, each derived from its own secret and carrying its name |
| Projector.ProjectIngresses | app/app.py:386-401 | the ingress loop's result, records or the first failure, is the ingress projection of the list |
| Projector.IngressViews | app/app.py:387-401 | the ingress projection of a list; characterised by Projector.IngressViewsSucceed, Projector.IngressViewsFirstFailure and Projector.IngressViewsAreKept |
| Projector.Kept | app/app.py:388 | the ingresses with rules, in order; characterised by Projector.KeptIsFiltered, Projector.KeptIsComplete and Projector.KeptAppend |
| Projector.IngressViewsFailureSticks | app/app.py:387-401 | once a prefix of the list fails, the whole list fails with that same error |
| Projector.IngressViewsSucceed | app/app.py:387-401 | the ingress projection succeeds exactly when no single ingress fails |
| Projector.IngressViewsFirstFailure | app/app.py:387-401 | a failed projection reports the failure of the first failing ingress, and every ingress before it succeeds |
| Projector.IngressViewsAreKept | app/app.py:387-401 | a successful projection has one record per ingress with rules, in order, each built from that ingress and carrying its name |
| Projector.KeptIsFiltered | app/app.py:388 | the kept ingresses are no more than the input, each has rules, and each comes from the input |
| Projector.KeptIsComplete | app/app.py:388 | every listed ingress that has rules is kept |
| Projector.KeptAppend | app/app.py:387-401 | filtering distributes over concatenation, so kept ingresses stay in input order |
| Page.SectionOf | app/app.py:144-173 | one page section; stated by Page.SectionMeaning and Page.EmptySection |
| Page.SectionMeaning | app/app.py:144-173 | a section header reads back the record count; the placeholder is shown exactly when there are no records; otherwise the table holds all records |
| Page.EmptySection | app/app.py:170-173 | a section with no records has header "<title> (0)" and the text "No <title> found" |
| Page.FirstFailure | app/app.py:337-438 | the failure the request stops at, in call order; stated by Page.SucceedsExactly |
| Page.SucceedsExactly | app/app.py:337-438 | the request succeeds exactly when all six list calls succeed and no listed ingress fails |
| Page.Index | app/app.py:336-438 | status 500 exactly when a failure occurs, carrying the first failure in call order and no page; otherwise every section shows exactly its kind's projection, and the namespace, host name and timestamp are passed through |

## Left out

- Kubernetes client setup (in-cluster credentials first, then the kube config file) and the six `list_namespaced_*` calls are foreign network I/O. `Index` takes each call's outcome as a `Result` input.
- Flask routing, the HTTP server start-up and reading `NAMESPACE` from the environment are plumbing. The namespace is a parameter of `Index`.
- `socket.gethostname()` and the `strftime` timestamp are ambient reads. They are the `instance` and `generatedAt` parameters of `Index`.
- Projector.ProjectPods: the source reads the clock once per pod; the model takes one reading `now` for the whole request, so it does not capture the few microseconds between readings.
- Age.ElapsedSeconds: the source subtracts time-zone-aware datetimes and works on the float `total_seconds()`. The model works on exact microseconds, so float rounding (significant only for ages of centuries) is not modelled.
- Records.DeploymentViewMeaning: `spec.replicas` is modelled as a count, because the API server always fills it in. If the client returned `None`, the source would show `"R/None"`, which the model does not produce.
- Counts (restart counts, replica counts, port numbers) are `nat`, because the API server rejects negative values.
- HTML, CSS and Jinja rendering are library presentation. Each section is modelled by its header text, and by either its table rows or its placeholder. The table columns, cell markup and escaping are not modelled.
- The error response body formats `type(e).__name__` and `str(e)` of a Python exception. The model returns the `Failure` value itself, and the exception text of a failed attribute access is not reproduced.
- Failures other than the ones modelled are not reproduced. Examples are a pod without `status`, or an ingress backend with a service whose port object is malformed. The model's objects always have the fields the handler reads, except where the client allows `None` and the handler checks for it, and except the unchecked `backend.service`.
