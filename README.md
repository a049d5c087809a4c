# PoolZen core in Dafny

PoolZen is a pool-service marketing site. Its data lives in a Convex document store with five tables: users, services, locations, suburbs and quotes. The model covers the last four; no part of the core reads or writes `users`. Its pages are React views over that store's queries. This project models the core of that system and proves properties about the model:

- **Store and mutations** (`database.dfy`, `quotes.dfy`, `locations.dfy`, `suburbs.dfy`). The store is a class `Db` with one sequence per table and an id counter. The queries are functions on those sequences. The mutations `create`, `updateStatus` and `seedDatabase` are methods that change the store, with `modifies` clauses.
- **Seed** (`catalog.dfy`, `slug.dfy`, `seed.dfy`). The default catalog: four services, and seven locations that each list seven suburbs. `slugify` is modelled as the chain of four regular-expression replaces and a `trim()`. The seed mutation is modelled as the nested insert loops it runs. These are proved:
  - referential integrity in both directions;
  - the counts (4, 7 and 49);
  - the seeded slug `newcastle` belongs to both a location and one of its suburbs.
- **SEO helpers** (`seo_utils.dfy`, `seo_head.dfy`).
  - The title, description, keyword, canonical-URL and schema generators, as functions.
  - The `SeoHead` effect, as a class `Head` over the document head:
    - the title;
    - the meta tags, as a map from tag to content;
    - the canonical link;
    - the script elements, as a sequence.
- **Sitemap** (`sitemap.dfy`). The entry list that `generate-sitemap.mjs` writes, built by the same four loops.
- **Views** (`progress_tracker.dfy`, `admin.dfy`, `contact_form.dfy`, `location_switcher.dfy`, `service_location.dfy`, `suburb_page.dfy`, `location_page.dfy`, `faq_section.dfy`). What each view derives from its queries and props:
  - which page renders while loading, when something is missing, and on success;
  - the figures, filters, cards, lists, breadcrumbs and head tags it computes;
  - for the contact form and the FAQ section, the state each keeps (a class with `modifies`).
- **Shared helpers** (`wrappers.dfy`, `text.dfy`, `arith.dfy`, `records.dfy`, `object_map.dfy`). `Option`/`Result`; ASCII lower-casing; decimal rendering; joins and searches on strings; the record types; and a plain JavaScript object used as a dictionary, whose keys are listed in insertion order (true for the non-numeric names it is keyed by here).

A query's result in a view is `Query<T>`:
- `Loading` is `undefined`: still loading, or skipped with `"skip"`;
- `Missing` is `null`;
- `Found(v)` is a result.

JavaScript truthiness is written out where the source relies on it. An empty string is falsy, so `locationName || 'Sydney'` and `if (keywords)` treat `""` as absent.

Some properties span several files:
- On `/:locationSlug` a suburb always wins over a location with the same slug.
- The seed stores `newcastle` as both. So `/newcastle`, which the sitemap lists as the Newcastle location page, renders the Newcastle suburb page (`SuburbPage.NewcastleShowsSuburb`).
- The location and suburb pages put their canonical links on `https://poolzen.com.au`. The shared helpers and the sitemap use `https://pool-zen.vercel.app` (`LocationPage.CanonicalDisagreesWithHelpers`).

Two consequences of how `slugify` (`convex/seed.ts:107-113`) is written:
- `[^\w-]` keeps underscores as well as letters, digits and hyphens.
- `trim()` removes whitespace only. It runs after whitespace has already become hyphens, so a leading or trailing hyphen stays: `" Bondi"` becomes `"-bondi"` (`Slug.BondiWithLeadingSpace`).

## Model

| member | source | states |
|---|---|---|
| Database.NextIdIsFresh | convex/seed.ts:131-138 | the id an insert hands out was never issued before |
| Database.IssuedGrows | convex/seed.ts:131-138 | each insert adds exactly its own id to the issued ids |
| Database.Db.constructor | convex/schema.ts:4-56 | the store starts with the four modelled tables empty |
| Database.Db.InsertService | convex/seed.ts:126 | `insert("services", doc)` appends the document under a fresh id and leaves the other tables alone |
| Database.Db.InsertLocation | convex/locations.ts:35 | `insert("locations", doc)` appends the document under a fresh id and leaves the other tables alone |
| Database.Db.InsertSuburb | convex/suburbs.ts:47 | `insert("suburbs", doc)` appends the document under a fresh id and leaves the other tables alone |
| Database.Db.InsertQuote | convex/quotes.ts:35-40 | `insert("quotes", doc)` appends the document under a fresh id and leaves the other tables alone |
| Database.Db.QuoteIndex | convex/quotes.ts:54-55 | finds the position of the quote with the id, or says that no stored quote has it |
| Database.Db.GetQuote | convex/quotes.ts:55 | `db.get(id)` returns a stored quote with that id exactly when one exists |
| Database.Db.PatchQuoteStatus | convex/quotes.ts:54 | `db.patch(id, { status })` rewrites that one field of that one quote and nothing else |
| Quotes.GetAll | convex/quotes.ts:4-12 | every quote, newest first (the table reversed) |
| Quotes.GetByLocation | convex/quotes.ts:14-22 | exactly the quotes of that location, in table order |
| Quotes.NewestFirst | convex/quotes.ts:7-10 | a newly created quote heads the listing and the rest is the old listing |
| Quotes.ByLocationAfterInsert | convex/quotes.ts:14-22 | a new quote joins the end of its own location's list and leaves every other location's list alone |
| Quotes.NewQuote | convex/quotes.ts:33-41 | the inserted document is the arguments, status "pending", an estimate in 100..299 and the creation time |
| Quotes.EstimateRange | convex/quotes.ts:34 | the possible estimates are exactly 100 through 299 |
| Quotes.Create | convex/quotes.ts:24-42 | `create` appends that document under a fresh id and changes no other table |
| Quotes.StatusUpdate | convex/quotes.ts:49-56 | a status outside pending/completed/cancelled is refused, an unknown id is refused, otherwise the one quote gets the status and is returned |
| Quotes.AnyTransitionAllowed | convex/quotes.ts:51-54 | any stored quote can be moved to any of the three statuses, whatever its current one |
| Quotes.UpdateIdempotent | convex/quotes.ts:54 | writing the same status twice leaves the table as one write left it |
| Quotes.UpdateStatus | convex/quotes.ts:44-57 | the check comes before the write: an invalid status changes nothing; otherwise the patch and the re-read |
| Locations.GetAll | convex/locations.ts:4-12 | exactly the active locations, in table order |
| Locations.GetBySlug | convex/locations.ts:14-23 | the first active location with the slug, or null exactly when none has it |
| Locations.BySlugIsFirstActive | convex/locations.ts:14-23 | the lookup by slug is the first row of the active listing with that slug |
| Locations.Create | convex/locations.ts:25-37 | the arguments are stored as given under a fresh id |
| Locations.DuplicateSlugShadowed | convex/locations.ts:25-37 | a second location with a taken slug is stored and listed but never returned by the slug lookup |
| Suburbs.GetAll | convex/suburbs.ts:4-12 | exactly the active suburbs, in table order |
| Suburbs.GetBySlug | convex/suburbs.ts:14-23 | the first active suburb with the slug, or null exactly when none has it |
| Suburbs.GetByLocation | convex/suburbs.ts:25-34 | exactly the active suburbs of that parent, in table order |
| Suburbs.ByLocationWithinAll | convex/suburbs.ts:25-34 | a location's suburbs are always part of the active listing |
| Suburbs.Create | convex/suburbs.ts:36-49 | the arguments are stored as given under a fresh id, whether or not the parent exists |
| Suburbs.ByLocationAfterCreate | convex/suburbs.ts:36-49 | a created active suburb joins its parent's list; no other parent's list changes |
| Catalog.DefaultServices | convex/seed.ts:4-45 | there are four default services (only the count is stated) |
| Catalog.DefaultLocations | convex/seed.ts:48-105 | there are seven default locations (only the count is stated) |
| Slug.SlugifyIsSlug | convex/seed.ts:107-113 | every result is made of lower-case letters, digits, underscores and hyphens, with no two hyphens in a row |
| Slug.LowerHasNoUpper | convex/seed.ts:108 | after `toLowerCase` no ASCII capital is left |
| Slug.DashWhitespaceChars | convex/seed.ts:109 | replacing whitespace runs adds nothing but hyphens |
| Slug.StripNonWordChars | convex/seed.ts:110 | after the second replace only `[\w-]` characters are left |
| Slug.CollapseHyphensChars | convex/seed.ts:111 | collapsing hyphen runs adds no character and keeps the first one |
| Slug.CollapseHyphensNoDouble | convex/seed.ts:111 | after the third replace no two hyphens are adjacent |
| Slug.TrimKeepsSlug | convex/seed.ts:112 | `trim()` changes nothing once no whitespace is left |
| Slug.DashWhitespaceIdentity | convex/seed.ts:109 | a text without whitespace passes the first replace unchanged |
| Slug.StripNonWordIdentity | convex/seed.ts:110 | a text of `[\w-]` characters passes the second replace unchanged |
| Slug.CollapseHyphensIdentity | convex/seed.ts:111 | a text without a double hyphen passes the third replace unchanged |
| Slug.SlugifyFixesSlugs | convex/seed.ts:107-113 | a slug slugifies to itself |
| Slug.SlugifyIdempotent | convex/seed.ts:107-113 | slugifying twice is slugifying once |
| Slug.DashWhitespaceLeading | convex/seed.ts:109 | leading whitespace becomes a leading hyphen |
| Slug.LeadingWhitespaceKeepsHyphen | convex/seed.ts:109-112 | a text with leading whitespace slugifies to a slug starting with a hyphen, because `trim()` runs last |
| Slug.SlugifyIgnoresCase | convex/seed.ts:108 | only the lower-cased text matters |
| Slug.SlugifyOfLoweredSlug | convex/seed.ts:107-113 | a text whose lower-cased form is a slug slugifies to that form |
| Slug.SlugOfCapitalisedWord | convex/seed.ts:107-113 | a capitalised word slugifies to itself with the capital lowered |
| Slug.SlugOfNewcastle | convex/seed.ts:143-145 | the suburb "Newcastle" gets the slug `newcastle` |
| Slug.SlugifyLeadingSpace | convex/seed.ts:109-112 | one leading space before such a word survives as a leading hyphen |
| Slug.BondiWithLeadingSpace | convex/seed.ts:109-112 | " Bondi" slugifies to "-bondi" |
| Seed.StampedServices | convex/seed.ts:125-127 | the services as stored: each default document in order, with consecutive fresh ids |
| Seed.SuburbRows | convex/seed.ts:141-152 | one row per listed name, in order: the name, its slug, the location's region, the parent id, the description text, active |
| Seed.SuburbRowsSnoc | convex/seed.ts:142-151 | one turn of the suburb loop appends the next row |
| Seed.PlanFor | convex/seed.ts:130-153 | the location loop stores one location row per location |
| Seed.PlanForSnoc | convex/seed.ts:130-153 | one turn of the location loop extends the tables by that location and its suburbs |
| Seed.InsertServices | convex/seed.ts:125-127 | the services loop appends the documents in order and touches no other table |
| Seed.InsertSuburbRows | convex/seed.ts:141-152 | the suburbs loop of one location appends exactly its suburb rows |
| Seed.InsertLocationAndSuburbs | convex/seed.ts:131-152 | the location, then its suburbs, each taking the next id |
| Seed.InsertLocations | convex/seed.ts:130-153 | the locations loop produces the planned tables |
| Seed.SeedDatabase | convex/seed.ts:115-157 | with a service already stored nothing changes ("Database already seeded"); otherwise the services, then each location followed by its suburbs ("Database seeded successfully") |
| Seed.PlanCounts | convex/seed.ts:130-153 | one location row per location and one suburb row per listed name |
| Seed.ExtendKeepsParents | convex/seed.ts:131-152 | one turn keeps every suburb row pointing at a stored location that lists its name |
| Seed.ExtendKeepsNamesCovered | convex/seed.ts:131-152 | one turn keeps a suburb row for every listed name |
| Seed.PlanKeepsIntegrity | convex/seed.ts:130-153 | referential integrity holds in both directions after the location loop |
| Seed.ExtendLocations | convex/seed.ts:131-138 | each stored location is the listed one with its new id |
| Seed.PlanLocations | convex/seed.ts:130-138 | the stored locations are the listed ones, in order |
| Seed.UniformSuburbCount | convex/seed.ts:141-152 | with n names per location there are n suburb rows per location |
| Seed.DefaultLocationsListSeven | convex/seed.ts:54-102 | each default location lists seven suburbs |
| Seed.SeededCounts | convex/seed.ts:115-157 | seeding an empty store makes 4 services, 7 locations and 49 suburbs |
| Seed.SeededLocations | convex/seed.ts:130-138 | the seeded locations are the default ones, in order |
| Seed.SeededIntegrity | convex/seed.ts:141-152 | after seeding every suburb points at the location that lists it, and every listed name has a suburb |
| Seed.PlanSuburbsActive | convex/seed.ts:149 | every suburb row the loop adds is active |
| Seed.SeededNewcastleTwice | convex/seed.ts:89-96 | the slug `newcastle` is stored twice, as a location and as one of its suburbs, both active |
| SeoUtils.Branch | client/src/lib/seo-utils.ts:39-68 | which of the six page kinds the generators pick: service with location, then service with suburb, service, location, suburb, home; an empty suburb counts as none |
| SeoUtils.TitleShape | client/src/lib/seo-utils.ts:39-69 | every title ends with " \| PoolZen"; each named branch leads with what it was given (service and location, service and suburb, service then "Services Sydney", "Pool Maintenance" and the location, "Pool Services" and the suburb); the service-and-location title shows "From $" and the base price |
| SeoUtils.ServiceTitleShape | client/src/lib/seo-utils.ts:52-55 | the service-only title opens with the service name and " Services Sydney" and ends with " \| PoolZen" |
| SeoUtils.DescriptionShape | client/src/lib/seo-utils.ts:74-98 | the location description names the first three listed suburbs; the priced description quotes price and unit; the suburb description names the suburb |
| SeoUtils.BaseKeywordsDistinct | client/src/lib/seo-utils.ts:104-110 | the five base keywords are distinct |
| SeoUtils.KeywordListShape | client/src/lib/seo-utils.ts:103-140 | no repeats, at most fifteen, only candidates, the five base keywords first; the first fifteen distinct candidates in order of first appearance: the distinct keywords of any leading run of candidates open the list while there are at most fifteen, the list is fifteen long when there are more, and every candidate is kept when there are at most fifteen |
| SeoUtils.CanonicalPrecedence | client/src/lib/seo-utils.ts:145-161 | every canonical URL starts with the base URL; a service without a location is ignored; service with location gives `/services/<service>/<location>`, a location alone `/<location slug>`, a non-empty suburb `/` plus the suburb lower-cased with whitespace runs as `-`, otherwise the bare base |
| SeoUtils.OpenGraphData | client/src/lib/seo-utils.ts:166-178 | the Open Graph title, description and URL are the three generators' results for the same arguments; fixed site name and 1200x630 image |
| SeoUtils.ListItems | client/src/lib/seo-utils.ts:187-192 | one list item per crumb, position i + 1, its name and URL |
| SeoUtils.BreadcrumbSchema | client/src/lib/seo-utils.ts:183-194 | a BreadcrumbList over exactly the given crumbs, in order |
| SeoUtils.BreadcrumbPositions | client/src/lib/seo-utils.ts:189 | positions strictly increase and the last is the number of crumbs |
| SeoUtils.FaqSchema | client/src/lib/seo-utils.ts:199-212 | one Question per FAQ, in order, carrying its question and answer |
| SeoUtils.ServiceSchemaFor | client/src/lib/seo-utils.ts:217-257 | with a location: "name in location" and that one city; without: the service name and the three regions; price, currency, unit and provider fixed as in the source |
| SeoUtils.SchemaPriceInTitle | client/src/lib/seo-utils.ts:44 | the schema's price is the one the service-and-location title advertises |
| SeoHead.TruncateShape | client/src/components/seo-head.tsx:32 | a text over the limit becomes its first limit - 3 characters plus "...", exactly the limit long; a text within the limit is kept |
| SeoHead.FoundWhereAppended | client/src/components/seo-head.tsx:42-44 | the closing `"]` of a selector is found right after the name when the name does not contain it |
| SeoHead.NameRoundTrip | client/src/components/seo-head.tsx:42-44 | the name recovered from `meta[name="…"]` by the two replaces is the name the selector was built from |
| SeoHead.BasicShape | client/src/components/seo-head.tsx:52-64 | the description is written truncated to 160, robots always, keywords only when truthy, and nothing else |
| SeoHead.RobotsFollowNoindex | client/src/components/seo-head.tsx:63-64 | robots reads "noindex, nofollow" exactly when `noindex` is true |
| SeoHead.TwitterMirrorsOpenGraph | client/src/components/seo-head.tsx:80-99 | the Twitter title, description, image and URL equal the Open Graph ones; both URLs exist exactly when the canonical is truthy |
| SeoHead.OpenGraphFallbacks | client/src/components/seo-head.tsx:80-81 | the share title falls back to the untruncated title and the share description to the truncated description |
| SeoHead.MetaAfterKeeps | client/src/components/seo-head.tsx:35-49 | a tag the effect does not write keeps its old content |
| SeoHead.MetaAfterIdempotent | client/src/components/seo-head.tsx:30-120 | running the effect twice with the same props leaves the meta tags as one run left them |
| SeoHead.BlocksTagged | client/src/components/seo-head.tsx:106-113 | one JSON-LD script per data item, in order, tagged `schema-<index>`, and the tags are distinct |
| SeoHead.BlocksAreInjected | client/src/components/seo-head.tsx:110 | every injected script carries the structured-data mark |
| SeoHead.CleanupRestoresBase | client/src/components/seo-head.tsx:102-119 | the effect never touches the unmarked base scripts of the page |
| SeoHead.ScriptsAfterIdempotent | client/src/components/seo-head.tsx:102-114 | injecting the same data twice leaves one set of blocks |
| SeoHead.Head.constructor | client/src/components/seo-head.tsx:18-29 | the document head as found: title, meta tags, canonical link and scripts |
| SeoHead.Head.SetMetaTag | client/src/components/seo-head.tsx:35-49 | `setMetaTag`: the tag's content is overwritten if it exists, else the tag is added; nothing else changes |
| SeoHead.Head.RemoveInjected | client/src/components/seo-head.tsx:104 | removes exactly the marked scripts and keeps the others in order |
| SeoHead.Head.AppendBlocks | client/src/components/seo-head.tsx:106-113 | appends the tagged blocks after the existing scripts |
| SeoHead.Head.WriteBasicTags | client/src/components/seo-head.tsx:51-64 | writes the description, keywords and robots tags |
| SeoHead.Head.WriteOpenGraphTags | client/src/components/seo-head.tsx:79-90 | writes the Open Graph tags, the URL only with a truthy canonical |
| SeoHead.Head.WriteTwitterTags | client/src/components/seo-head.tsx:92-99 | writes the Twitter tags, the URL only with a truthy canonical |
| SeoHead.Head.Apply | client/src/components/seo-head.tsx:30-114 | the effect: the truncated title, the meta tags, the canonical link when truthy, the structured data replaced when given |
| SeoHead.Head.Cleanup | client/src/components/seo-head.tsx:117-119 | the cleanup removes the injected scripts and nothing else |
| Sitemap.EachAt | scripts/generate-sitemap.mjs:72-102 | a `forEach` adds one entry per item, in the items' order |
| Sitemap.AppendEach | scripts/generate-sitemap.mjs:72-80 | the loop appends that item's entry for each item, after what was already written |
| Sitemap.GenerateSitemap | scripts/generate-sitemap.mjs:60-117 | the four loops write the entries of `Entries`: static pages, locations, suburbs, then the pairs |
| Sitemap.PairsLength | scripts/generate-sitemap.mjs:105-115 | the nested loop writes one entry for every service and location pair |
| Sitemap.PairsPrefix | scripts/generate-sitemap.mjs:105-115 | the pairs of the first i services are a prefix of all the pairs |
| Sitemap.PairsStep | scripts/generate-sitemap.mjs:105-115 | one outer turn appends one service's row of pairs |
| Sitemap.PairAt | scripts/generate-sitemap.mjs:105-115 | pair (i, j) is entry i·\|locations\| + j, so services come first in the order |
| Sitemap.PairEntryShape | scripts/generate-sitemap.mjs:107-112 | a pair's page is under `/services/` and its priority is the smaller of the two |
| Sitemap.EntriesLength | scripts/generate-sitemap.mjs:60-117 | the entries are the four parts in order |
| Sitemap.StaticPagesFirst | scripts/generate-sitemap.mjs:72-80 | the static pages open the list, in their order, with their own frequency and priority |
| Sitemap.LocationsNext | scripts/generate-sitemap.mjs:83-91 | the locations follow, weekly, at their own priority |
| Sitemap.SuburbsThen | scripts/generate-sitemap.mjs:94-102 | the suburbs follow, weekly, at priority 0.6 |
| Sitemap.EntryCount | scripts/generate-sitemap.mjs:128 | the total the script prints is the number of entries it writes |
| Sitemap.PairsLast | scripts/generate-sitemap.mjs:105-115 | pair (i, j) sits after all the static, location and suburb entries |
| Sitemap.PairsUnderBase | scripts/generate-sitemap.mjs:108-109 | every pair URL is on the base URL and carries today's date |
| Sitemap.EveryEntryUnderBase | scripts/generate-sitemap.mjs:74-109 | every URL in the sitemap is on the base URL and carries today's date |
| Sitemap.PairsPrioritiesBounded | scripts/generate-sitemap.mjs:111 | the smaller of two priorities within 1.0 is within 1.0 |
| Sitemap.PrioritiesBounded | scripts/generate-sitemap.mjs:77-111 | with the listed priorities within 1.0, every written priority is |
| Sitemap.SuburbListOmitsNewcastle | scripts/generate-sitemap.mjs:35-50 | the script lists 48 suburb slugs, not `newcastle` |
| Sitemap.ShownSitemapCount | scripts/generate-sitemap.mjs:124-128 | the script writes 87 URLs: 4 + 7 + 48 + 28 |
| Sitemap.ShownPrioritiesValid | scripts/generate-sitemap.mjs:16-58 | every priority the script writes lies within 0.0–1.0 |
| Sitemap.NewcastleListedAsLocation | scripts/generate-sitemap.mjs:30 | `/newcastle` is the tenth entry, listed as a location at priority 0.7 |
| ProgressTracker.WholeIsHundred | client/src/components/progress-tracker.tsx:80-83 | with the formula's rounding, a whole positive total is exactly 100 percent |
| ProgressTracker.Progress | client/src/components/progress-tracker.tsx:34-51 | the loading card shows exactly when one of the three lists is still undefined |
| ProgressTracker.CategoriesComplete | client/src/components/progress-tracker.tsx:54-84 | each category is complete at 100 percent; service-location pages number locations × services; the totals are the sums |
| ProgressTracker.TotalPercentage | client/src/components/progress-tracker.tsx:80-83 | the total is 100 percent exactly when there is a page and NaN when there is none; the badge reads "COMPLETE!" exactly when there is a page |
| Admin.Stats | client/src/pages/admin.tsx:62-75 | the total is the number of quotes and pending/completed are the sizes of the two status filters (all 0 while loading); pending and completed never exceed the total; no quotes gives an average of 0; services, locations and suburbs are the list lengths, 0 while loading |
| Admin.SumWithin | client/src/pages/admin.tsx:74 | the reduce over the estimates lies between n·lo and n·hi when each counted estimate does |
| Admin.AverageWithin | client/src/pages/admin.tsx:74 | the rounded average lies within any range every counted estimate lies within |
| Admin.ZeroEstimateCountsAsDefault | client/src/pages/admin.tsx:74 | an estimate of 0 counts as 150, like a missing one |
| Admin.LocationNameIsFirstMatch | client/src/pages/admin.tsx:80 | the shown location name is the first match's, with "Unknown" when there is none, the list is loading or the name is empty |
| Admin.ServiceNameIsFirstMatch | client/src/pages/admin.tsx:81 | the same for services, with "General Service" |
| Admin.WithDetails | client/src/pages/admin.tsx:78-82 | one detailed row per quote, in order, each carrying its own quote, the name `LocationName` gives for its location id and the name `ServiceName` gives for its service id |
| Admin.Filtered | client/src/pages/admin.tsx:85-93 | the shown rows, in order, are exactly those matching the status filter and the case-blind search |
| Admin.NoFilterShowsAll | client/src/pages/admin.tsx:86-87 | the "all" filter with no search term shows every row |
| Admin.FilterKeepsOneStatus | client/src/pages/admin.tsx:86 | any other filter shows only quotes of its status |
| Admin.RecentActivity | client/src/pages/admin.tsx:253 | the recent list is the first five shown rows, or all of them when fewer |
| Admin.ActionsOnlyWhenPending | client/src/pages/admin.tsx:357-378 | the buttons appear exactly for a pending quote, and they only ask for completed or cancelled |
| Admin.StatusColorsDistinct | client/src/pages/admin.tsx:115-122 | the three statuses get three different colours and anything else is grey |
| ContactForm.FieldErrors | client/src/components/contact-form.tsx:16-24 | the form passes exactly when both names have 2+ characters, the email is valid, the phone has 10+, and a location and a service are chosen |
| ContactForm.DefaultsRejected | client/src/components/contact-form.tsx:37-45 | the empty default form fails every required field |
| ContactForm.Args | client/src/components/contact-form.tsx:50-57 | the arguments sent: email, phone and ids as typed; an empty message is sent as absent |
| ContactForm.NameSplitsBack | client/src/components/contact-form.tsx:51 | for a first name without a space, the first space of the customer name splits the two names back |
| ContactForm.QuoteForm.constructor | client/src/components/contact-form.tsx:35-46 | the form starts at its default values with no field errors and no toasts |
| ContactForm.QuoteForm.Submit | client/src/components/contact-form.tsx:35-70 | the schema runs first and its errors are shown; with any error nothing is stored, no toast is raised and the values stay; a valid form on success creates one quote, resets the form and raises the success toast; on failure nothing is stored, the values stay and the error toast is raised |
| ContactForm.ValidFormArgs | client/src/components/contact-form.tsx:16-24 | a form that passes the schema sends a customer name of 5+ characters, a valid email, a phone of 10+ characters, and a location and a service |
| LocationSwitcher.FilteredLocations | client/src/components/location-switcher.tsx:30 | exactly the locations of the selected region, in order; none while loading |
| LocationSwitcher.Regions | client/src/components/location-switcher.tsx:31 | each region of a listed location once, and nothing else |
| LocationSwitcher.RegionsInFirstAppearanceOrder | client/src/components/location-switcher.tsx:31 | the tabs come in order of first appearance |
| LocationSwitcher.PushRow | client/src/components/location-switcher.tsx:41-51 | the inner loop pushes one card per service, in service order, after the earlier cards |
| LocationSwitcher.GetFilteredCombinations | client/src/components/location-switcher.tsx:36-55 | no cards while the services load; otherwise the first six of all (location, service) cards |
| LocationSwitcher.RowLength | client/src/components/location-switcher.tsx:41-51 | one location contributes one card per service |
| LocationSwitcher.RowShape | client/src/components/location-switcher.tsx:41-51 | card j of a location's row is service j's card |
| LocationSwitcher.CombinationsLength | client/src/components/location-switcher.tsx:40-52 | before the cap there are locations × services cards |
| LocationSwitcher.CardCount | client/src/components/location-switcher.tsx:54 | the cards shown number min(6, locations × services), and none while loading |
| LocationSwitcher.CombinationsPrefix | client/src/components/location-switcher.tsx:40-52 | the cards of the first i locations come before all the others |
| LocationSwitcher.CardAt | client/src/components/location-switcher.tsx:40-52 | card i·\|services\| + j is service j at location i |
| LocationSwitcher.CardShape | client/src/components/location-switcher.tsx:42-50 | the description is the first 100 characters plus "...", the price reads "From $" and the base price, the image is the one for index mod 4 |
| LocationSwitcher.DisplayNameDropsRegion | client/src/components/location-switcher.tsx:45 | a name starting with the region and a space loses that prefix; a name without it is kept |
| ServiceLocation.Fetch | client/src/pages/service-location.tsx:32-33 | a lookup is skipped, so stays undefined, when the route gave no slug; otherwise it is the store's answer |
| ServiceLocation.Resolve | client/src/pages/service-location.tsx:37-68 | loading exactly while either lookup is undefined, "Service Not Found" when neither is undefined and either is null, the page exactly when both are found |
| ServiceLocation.EmptySlugKeepsLoading | client/src/pages/service-location.tsx:32-39 | a route without a service slug never leaves the loading state |
| ServiceLocation.Children | client/src/pages/service-location.tsx:264 | exactly the suburbs whose parent is the location, in order |
| ServiceLocation.GroupSuburbs | client/src/pages/service-location.tsx:263-270 | the reduce, run as a loop over the locations, builds the grouping |
| ServiceLocation.LaterLocationReplaces | client/src/pages/service-location.tsx:265-268 | a later location with the same region and name overwrites the earlier card; one without suburbs changes nothing; no other card changes |
| ServiceLocation.CardsComeFromLocations | client/src/pages/service-location.tsx:263-270 | a card exists exactly for a location with suburbs, and holds the suburbs of a location with that region and name |
| ServiceLocation.StepKeepsWellFormed | client/src/pages/service-location.tsx:265-268 | one round keeps the keys distinct and leaves no region or card empty |
| ServiceLocation.GroupingWellFormed | client/src/pages/service-location.tsx:263-270 | the grouping never holds an empty region, an empty card or a repeated key |
| ServiceLocation.RegionOrder | client/src/pages/service-location.tsx:264-276 | regions are listed in the order in which their first location with suburbs comes |
| ServiceLocation.CapList | client/src/pages/service-location.tsx:292-313 | at most six are shown, a prefix of the list, and the rest are counted, exactly when there are more than six |
| ServiceLocation.MoreNote | client/src/pages/service-location.tsx:307-313 | the "+N more" note appears exactly when something was cut, and N is the number cut |
| ServiceLocation.PrimaryAreas | client/src/pages/service-location.tsx:203-211 | the first six listed area names and "+N more areas"; nothing when the list is absent |
| ServiceLocation.CapAccountsForAll | client/src/pages/service-location.tsx:292-313 | the shown entries and the note's count account for the whole list |
| ServiceLocation.NavTrail | client/src/pages/service-location.tsx:85-89 | three crumbs: Services, the service linking to its north-shore page, and the location without a link |
| ServiceLocation.BreadcrumbShape | client/src/pages/service-location.tsx:96-101 | four schema positions 1 to 4; the service crumb is the same whatever the location; only the last names the location's own page |
| SuburbPage.SuburbLookup | client/src/pages/suburb-page.tsx:24-25 | the suburb lookup is skipped, so undefined, for an empty slug; otherwise the store's answer |
| SuburbPage.LocationLookup | client/src/pages/suburb-page.tsx:28-31 | the location lookup is sent only when the slug is given, the fallback is on and the suburb lookup answered null |
| SuburbPage.Resolve | client/src/pages/suburb-page.tsx:22-82 | loading, the location page, "Page Not Found" and the suburb page, each stated as an exact condition on the two answers |
| SuburbPage.Answered | client/src/pages/suburb-page.tsx:24-31 | an answered lookup is null exactly when nothing matched |
| SuburbPage.RoutePrecedence | client/src/App.tsx:25-31 | on `/:locationSlug` an active suburb with the slug always wins; the location page shows only when no active suburb has it; otherwise "Page Not Found" |
| SuburbPage.SharedSlugShowsSuburb | client/src/App.tsx:29-30 | an active suburb and an active location sharing a slug route that slug to the suburb |
| SuburbPage.NewcastleShowsSuburb | convex/seed.ts:89-96 | after seeding, `/newcastle`, which the sitemap lists as the Newcastle location, renders the Newcastle suburb page |
| SuburbPage.Parent | client/src/pages/suburb-page.tsx:36 | the first listed location whose id is the suburb's parent id; none when the listing is loading or has no such id |
| SuburbPage.Trail | client/src/pages/suburb-page.tsx:84-87 | the region, linking to the parent exactly when one was found, then the suburb without a link |
| SuburbPage.Title | client/src/pages/suburb-page.tsx:106-108 | the title starts with "Pool Services" and the suburb name and ends with " \| PoolZen" |
| SuburbPage.Description | client/src/pages/suburb-page.tsx:110-112 | the description starts with the suburb and its region and ends with the fixed pitch |
| SuburbPage.Canonical | client/src/pages/suburb-page.tsx:144 | the canonical link is the suburb's slug on `https://poolzen.com.au/` |
| SuburbPage.SharedSlugSharesCanonical | client/src/pages/suburb-page.tsx:144 | a suburb and a location claim the same canonical link exactly when they share a slug |
| SuburbPage.KeywordList | client/src/pages/suburb-page.tsx:115-123 | seven keywords, six about the lower-cased suburb name and the fifth about the region |
| SuburbPage.LeadsHaveNoComma | client/src/pages/suburb-page.tsx:116-122 | no keyword lead holds a comma |
| SuburbPage.SeparatorHasOneComma | client/src/pages/suburb-page.tsx:123 | the join separator holds one comma |
| SuburbPage.KeywordsAreSeven | client/src/pages/suburb-page.tsx:114-124 | without commas in the names, the keyword string holds exactly six commas, so it reads back as seven entries |
| SuburbPage.GridSlug | client/src/pages/suburb-page.tsx:332 | the grid links the parent's slug when it has a non-empty one, else the suburb's own |
| SuburbPage.SeededGridUsesParent | client/src/pages/suburb-page.tsx:35-36 | after seeding, every suburb finds its parent, so the grid links the parent's slug |
| LocationPage.Resolve | client/src/pages/location-page.tsx:22-64 | loading exactly while the lookup is undefined or skipped for want of a slug; "Location Not Found" exactly on null; otherwise the page for the found location |
| LocationPage.Title | client/src/pages/location-page.tsx:87-89 | starts with "Pool Services" and the name, names the region, ends with " \| PoolZen" |
| LocationPage.SuburbSummary | client/src/pages/location-page.tsx:92 | the first three listed suburbs joined by ", ", or the text "undefined" when the list is absent |
| LocationPage.Description | client/src/pages/location-page.tsx:91-93 | starts with the location name and names the suburb summary and the region |
| LocationPage.KeywordList | client/src/pages/location-page.tsx:96-107 | the four base keywords, then one per listed suburb, in order |
| LocationPage.BuildKeywords | client/src/pages/location-page.tsx:95-110 | the pushes in the loop build exactly that list, which is then joined |
| LocationPage.SeparatorHasOneComma | client/src/pages/location-page.tsx:109 | the join separator holds one comma |
| LocationPage.LeadsHaveNoComma | client/src/pages/location-page.tsx:97-105 | no keyword lead holds a comma |
| LocationPage.PhraseHasNoComma | client/src/pages/location-page.tsx:97-105 | lower-casing adds no comma to a keyword |
| LocationPage.KeywordCount | client/src/pages/location-page.tsx:95-110 | without commas in the names, the keyword string holds 3 + n commas for n listed suburbs |
| LocationPage.Canonical | client/src/pages/location-page.tsx:118 | the canonical link is the slug on `https://poolzen.com.au/` |
| LocationPage.CanonicalDisagreesWithHelpers | client/src/pages/location-page.tsx:118 | this canonical link never equals the one `generateCanonicalUrl` gives the same location |
| LocationPage.DetailLinks | client/src/pages/location-page.tsx:304-342 | one "View … Details" link per service, `/services/<service>/<location>`; none while the services load |
| LocationPage.DetailLinksInSitemap | client/src/pages/location-page.tsx:341 | each detail link, on the site's base, is the address the sitemap lists for that pair |
| FaqSection.Toggled | client/src/components/faq-section.tsx:18-24 | an open index is closed, every occurrence removed; a closed one is opened at the end |
| FaqSection.ToggleFlips | client/src/components/faq-section.tsx:18-24 | a click flips that question and leaves every other question as it was |
| FaqSection.ToggleTwice | client/src/components/faq-section.tsx:18-24 | two clicks on one question restore which questions are open, and from a closed question the list itself |
| FaqSection.ToggleKeepsDistinct | client/src/components/faq-section.tsx:18-24 | no index is ever listed twice |
| FaqSection.FilterKeepsDistinct | client/src/components/faq-section.tsx:21 | filtering a list without repeats leaves none |
| FaqSection.OpenItems.constructor | client/src/components/faq-section.tsx:16 | no question is open at first |
| FaqSection.OpenItems.ToggleItem | client/src/components/faq-section.tsx:18-24 | a click applies that update and keeps the open indices distinct |
| FaqSection.Place | client/src/components/faq-section.tsx:29 | the place named is the location name, or "Sydney" when it is absent or empty |
| FaqSection.LocationFaqs | client/src/components/faq-section.tsx:27-40 | three questions, each naming the place in both question and answer |
| FaqSection.ServiceAnswerByExactName | client/src/components/faq-section.tsx:46-52 | each of the three exact service names gets its own answer; every other name gets the repairs answer |
| FaqSection.ServiceFaqs | client/src/components/faq-section.tsx:43-58 | two questions naming the lower-cased service; the first answer is the one for that name, the second starts with the name |
| FaqSection.GeneralFaqs | client/src/components/faq-section.tsx:62-78 | the four general questions |
| FaqSection.Faqs | client/src/components/faq-section.tsx:26-83 | five questions with a non-empty service name, seven without |
| FaqSection.FaqOrder | client/src/components/faq-section.tsx:42-82 | the service's two questions or the four general ones come first; the list ends with the three place questions, naming Sydney by default |

## Left out

- Rendering: JSX markup, styling, icons, test ids, and the fixed display lists (included items, process steps, benefits). The model keeps only the values these views compute.
- Time and randomness are parameters. The quote estimate's random draw is `roll` with `roll < 200`. `Date.now()` is `now`. The sitemap's date is `today`.
- `adminStats.thisMonthQuotes` is not modelled, because it depends on the clock's current month and year.
- `generateLocalBusinessSchema` (`client/src/lib/seo-utils.ts:262-376`) is not modelled. It is a fixed document whose only varying part, `areaServed`, is chosen as in `SeoUtils.ServiceSchemaFor`.
- Structured data reaches `SeoHead` as already-serialised text. `JSON.stringify` is not modelled.
- The order of elements in the document head is not modelled. Meta tags are a map keyed by tag.
- The React effect lifecycle is not modelled: when the effect re-runs, and running the cleanup before the next run. `Head.Apply` and `Head.Cleanup` are separate methods for a caller to sequence.
- The sitemap's XML text, the file write and the console summary are not modelled. Entries are records. Priorities are whole tenths, because the script's priorities all have one decimal place.
- Floating point: `Math.round(a / b * 100)` and `Math.round(sum / n)` are modelled as exact rational rounding, with halves rounded up. Binary rounding at a .5 boundary is not modelled.
- Strings are sequences of characters. UTF-16 code units (`length`, `substring`) are not modelled. `toLowerCase` is modelled on ASCII letters only.
- The email rule of the contact form's zod schema is a predicate parameter, `isEmail`. The toast texts are enum values.
- The store's index ordering is taken to be table (creation) order. This covers `first()` on `by_slug` and `collect()` on `by_location`. Convex transactions, concurrency and `_creationTime` are not modelled.
- `updateStatus` on an id that names no quote is modelled as the error `NoSuchQuote`. The exception text Convex raises is not.
- `convex/services.ts` is not part of this model. The service lookups the views make are taken as the answers they return.
- The `LocalSchema` component and the suburb page's `suburbAsLocation` object are not part of this model.
- The FAQ subtitle (`client/src/components/faq-section.tsx:96-97`) is not modelled, because it is display text only.
- The location switcher's selected region is the `region` parameter. The state update on a tab click is not modelled.
- The `users` table (`convex/schema.ts:5-8`) is not modelled, because no part of the core reads or writes it.
- ObjectMap lists keys in insertion order. JavaScript lists integer-like keys (such as `"2000"`) first, in ascending numeric order. The model does not capture that ordering. It matters for `ServiceLocation.RegionOrder` only if a region or location name is such a string; none of the seeded names is.
- Keys that name inherited `Object.prototype` members (`"constructor"`, `"toString"`, `"__proto__"`, …) are outside the model of plain-object lookups (`ObjectMap.GetOr`, `SeoUtils.ServiceKeywordTable`, `SeoUtils.RegionKeywordTable`). This affects `SeoUtils.KeywordListShape`, `ServiceLocation.GroupSuburbs` and `ServiceLocation.CardsComeFromLocations`. The model treats such a key as absent. The source behaves differently:
  - For a service slug or lower-cased region with such a name, the keyword lookup (`client/src/lib/seo-utils.ts:113`, `:121`) finds an inherited, truthy, non-iterable value, and the spread throws a `TypeError`.
  - For a region or location named `"__proto__"`, the grouping (`client/src/pages/service-location.tsx:266-267`) writes to the prototype instead of adding an own key, so no card is shown for it.
  - `convex/locations.ts:25-37` accepts any string for `region` and `name`, so such input can reach the store. None of the seeded names is such a key.
- SeoUtils.KeywordListShape: holds only for service slugs and regions that do not name an inherited `Object.prototype` member; the source throws there.
- ServiceLocation.GroupSuburbs: models own-key writes only; a region or location named `"__proto__"` is outside the model.
- ServiceLocation.CardsComeFromLocations: promises a card for a location named `"__proto__"` or in such a region, where the source shows none.
- Catalog.DefaultServices: states only how many services there are. Their content is the listed data, and `Seed.SeededLocations` and `Seed.SeededCounts` use it.
- Catalog.DefaultLocations: states only how many locations there are, for the same reason.
- A service's `basePrice` is a natural number, as the relational schema's integer column has it (`shared/schema.ts:18`). The Convex schema allows any number (`convex/schema.ts:15`). A fractional or negative price is outside the model, because prices are rendered by decimal printing of naturals.
- FaqSection.GeneralFaqs: states only that there are four questions. Their wording is fixed text.
