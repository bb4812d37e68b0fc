# Authorization layer, inventory store and list logic of the admin/template repository

This Dafny project models the decision-making core of a repository that
holds a Spring Boot user-administration service, a small inventory server,
and a collection of React front ends.

* **Endpoint authorization** (`EndpointAuthorization`, `AntPath`). The
  endpoint permission cache of the Spring service is a class whose field
  holds (matcher, permission) entries. `LoadPermissions` clears the cache
  and refills it row by row. `Check` walks the entries and the first matcher
  that fits decides; with no match the request is denied. Request matchers
  are an Ant-style glob matcher written here (`?`, `*`, `{var}`, `**`).
* **Object permissions** (`ObjectPermission`). Both `hasPermission`
  overloads: a guard, then the authority test, then ownership of the stored
  order.
* **Inventory server store** (`InventoryStorage`). `MemStorage` with its
  four insertion-ordered maps and id counters, the seeding done by its
  constructor, create/get/update/delete, the low-stock query, the
  most-recently-updated query and the dashboard summary.
* **Inventory client helpers** (`InventoryUtils`): low-stock test, stock
  badge, truncation, initials, "time ago" label.
* **Front-end logic.** The role hierarchy and the navigation drawer filter
  (`RoleProvider`, `NavDrawer`, `Grouping`); the point-of-sale cart
  (`PointOfSale`); the water-station store (`StationStore`); the delivery
  page (`DeliveryPage`) and its sidebar (`SidebarMenu`, `AquaTypes`); the
  note form and contact list handlers (`NoteEntry`, `ContactsApp`,
  `ContactTypes`); the todo list, blog editor and link organizer
  (`TodoList`, `BlogCreator`, `LinkOrganizer`); team management
  (`TeamManagement`); the real-estate task list (`RealEstateTasks`); the
  role and user forms of the admin UI (`RoleForm`, `UserForm`, `Selection`,
  `AdminTypes`); and the page-title resolver (`PageTitle`).

`Seqs` and `Text` hold the shared sequence and string helpers that stand in
for JavaScript's `filter`, `map`, `find`, `slice`, `trim`, `toLowerCase`,
`includes` and `split`.

Code that changes state in place is modelled as a class:
* the permission cache;
* `MemStorage`;
* the station store;
* the note form, the blog editor, the role form and the user form.

Their methods carry `modifies` clauses and state their whole new state as a
function of the old one. The pure handlers, which hand a new list to a
React setter, are functions. Each has lemmas for the invariants it keeps and
the operations it undoes or commutes with.

Conventions:
* Prices are whole cents.
* Clocks, generated ids (`Date.now()`, `crypto.randomUUID`,
  `Math.random`) and the locale date string are parameters.
* Letter case is ASCII only.

## Model

| member | source | states |
|---|---|---|
| EndpointAuthorization.DatabaseAuthorizationManager.constructor | user-admin-practice/src/main/java/org/rlv/security/DatabaseAuthorizationManager.java:25-28 | a manager built over a table without blank patterns holds exactly the cache one load of the table builds, with no key twice |
| EndpointAuthorization.DatabaseAuthorizationManager.LoadPermissions | user-admin-practice/src/main/java/org/rlv/security/DatabaseAuthorizationManager.java:30-39 | the cache is cleared, then filled row by row: it ends as the cache built from the rows before the first blank pattern (where the matcher's constructor throws), and the load completes iff no pattern is blank; keys stay unique |
| EndpointAuthorization.LoadedCount | user-admin-practice/src/main/java/org/rlv/security/DatabaseAuthorizationManager.java:33-38 | the number of rows a load puts before it throws: every earlier row has a pattern with text, the row at that index (if any) is blank, and it is the whole table iff no row is blank |
| EndpointAuthorization.LoadStopsAt | user-admin-practice/src/main/java/org/rlv/security/DatabaseAuthorizationManager.java:33-38 | a load stops exactly at the first blank pattern and does not complete |
| EndpointAuthorization.LoadCompletes | user-admin-practice/src/main/java/org/rlv/security/DatabaseAuthorizationManager.java:33-38 | a table without blank patterns is loaded in full |
| EndpointAuthorization.SameKey | user-admin-practice/src/main/java/org/rlv/security/DatabaseAuthorizationManager.java:34-35 | two rows share a cache key iff their patterns are equal or both spell the catch-all (`**`, `/**`), and their methods are equal or both lack text |
| EndpointAuthorization.KeyMatchesAsRow | user-admin-practice/src/main/java/org/rlv/security/DatabaseAuthorizationManager.java:35 | the normalised key matches exactly the requests the row's own pattern and method match |
| EndpointAuthorization.CatchAllSpellingsShareEntry | user-admin-practice/src/main/java/org/rlv/security/DatabaseAuthorizationManager.java:34-37 | GET rows for `**` (permission A) then `/**` (permission B) leave one entry holding B, so a principal holding only B is allowed GET /x |
| EndpointAuthorization.DatabaseAuthorizationManager.Check | user-admin-practice/src/main/java/org/rlv/security/DatabaseAuthorizationManager.java:41-57 | the answer is the first-match decision over the current cache, and an allow has a fitting entry whose permission the principal holds; the cache is not modified |
| EndpointAuthorization.PutLookup | user-admin-practice/src/main/java/org/rlv/security/DatabaseAuthorizationManager.java:34-37 | after a put the key maps to the new value and every other key keeps its value |
| EndpointAuthorization.LookupPresent | user-admin-practice/src/main/java/org/rlv/security/DatabaseAuthorizationManager.java:34-37 | every entry of a cache without duplicate keys is what a lookup of its matcher returns |
| EndpointAuthorization.Put | user-admin-practice/src/main/java/org/rlv/security/DatabaseAuthorizationManager.java:34-37 | the key ends mapped to the value, at most one entry is added, and every entry under another key is kept (values per key: PutLookup) |
| EndpointAuthorization.PutKeysUnique | user-admin-practice/src/main/java/org/rlv/security/DatabaseAuthorizationManager.java:34-37 | a put never creates a second entry for a key; each entry afterwards is the new one or an old one with another key |
| EndpointAuthorization.Build | user-admin-practice/src/main/java/org/rlv/security/DatabaseAuthorizationManager.java:30-39 | the cache loaded from the rows has at most one entry per row and an entry for every row's (pattern, method) (which value: BuildContents) |
| EndpointAuthorization.BuildContents | user-admin-practice/src/main/java/org/rlv/security/DatabaseAuthorizationManager.java:31-38 | a loaded cache has one entry per distinct (pattern, method) and holds the permission of the last row with that key |
| EndpointAuthorization.BuildEntriesFromRows | user-admin-practice/src/main/java/org/rlv/security/DatabaseAuthorizationManager.java:32-38 | every entry of a loaded cache comes from one of the rows, so nothing from before the load survives |
| EndpointAuthorization.FailClosed | user-admin-practice/src/main/java/org/rlv/security/DatabaseAuthorizationManager.java:54-56 | when no matcher fits the request it is denied, whatever the authorities |
| EndpointAuthorization.Decide | user-admin-practice/src/main/java/org/rlv/security/DatabaseAuthorizationManager.java:42-57 | the first entry whose matcher fits decides by exact permission-name comparison, and no fitting entry denies; stated by FirstMatchDecides, FailClosed, AllowedHasWitness and LaterEntriesIgnored |
| EndpointAuthorization.FirstMatchDecides | user-admin-practice/src/main/java/org/rlv/security/DatabaseAuthorizationManager.java:46-52 | the first fitting entry alone decides: allowed iff its permission is among the authorities |
| EndpointAuthorization.LaterEntriesIgnored | user-admin-practice/src/main/java/org/rlv/security/DatabaseAuthorizationManager.java:46-52 | once an entry fits, entries after it never change the decision |
| EndpointAuthorization.AllowedHasWitness | user-admin-practice/src/main/java/org/rlv/security/DatabaseAuthorizationManager.java:46-52 | an allowed request has a fitting entry whose permission name is held verbatim |
| EndpointAuthorization.DecideMonotone | user-admin-practice/src/main/java/org/rlv/security/DatabaseAuthorizationManager.java:49-50 | holding more authorities never turns an allow into a deny |
| EndpointAuthorization.ExactNameComparison | user-admin-practice/src/main/java/org/rlv/security/DatabaseAuthorizationManager.java:49-50 | names compare by exact equality: lower case, a longer name or a prefix does not grant "ORDER_EDIT" |
| AntPath.Split | user-admin-practice/src/main/java/org/rlv/security/DatabaseAuthorizationManager.java:35 | a path cuts into non-empty segments without slashes |
| AntPath.SplitJoin | user-admin-practice/src/main/java/org/rlv/security/DatabaseAuthorizationManager.java:35 | cutting a path joined from segments gives those segments back |
| AntPath.AnyRunMatchesAll | user-admin-practice/src/main/java/org/rlv/security/DatabaseAuthorizationManager.java:47 | a `*` segment accepts every segment |
| AntPath.LiteralSegMatch | user-admin-practice/src/main/java/org/rlv/security/DatabaseAuthorizationManager.java:47 | a segment without wildcards accepts exactly itself |
| AntPath.GlobstarMatchesAll | user-admin-practice/src/main/java/org/rlv/security/DatabaseAuthorizationManager.java:47 | a lone `**` accepts every path |
| AntPath.PathMatchAppend | user-admin-practice/src/main/java/org/rlv/security/DatabaseAuthorizationManager.java:47 | matches compose: pattern a matching path x and b matching y give a+b matching x+y |
| AntPath.TrailingGlobstar | user-admin-practice/src/main/java/org/rlv/security/DatabaseAuthorizationManager.java:47 | a pattern ending in `**` accepts everything below a path its front part accepts |
| AntPath.SegmentsFixLength | user-admin-practice/src/main/java/org/rlv/security/DatabaseAuthorizationManager.java:47 | a pattern without `**` only accepts paths with as many segments as it has |
| AntPath.CompileUsersOne | user-admin-practice/src/main/java/org/rlv/security/DatabaseAuthorizationManager.java:35 | "/api/users/*" compiles to two literal segments and one `*` segment |
| AntPath.CompileUsersAny | user-admin-practice/src/main/java/org/rlv/security/DatabaseAuthorizationManager.java:35 | "/api/users/**" compiles to two literal segments and a globstar |
| AntPath.StarAcceptsOneSegment | user-admin-practice/src/main/java/org/rlv/security/DatabaseAuthorizationManager.java:47 | "/api/users/*" accepts "/api/users/42" |
| AntPath.StarRejectsTwoSegments | user-admin-practice/src/main/java/org/rlv/security/DatabaseAuthorizationManager.java:47 | "/api/users/*" rejects "/api/users/42/roles" |
| AntPath.GlobstarAcceptsBoth | user-admin-practice/src/main/java/org/rlv/security/DatabaseAuthorizationManager.java:47 | "/api/users/**" accepts both example paths |
| AntPath.GlobExamples | user-admin-practice/src/main/java/org/rlv/security/DatabaseAuthorizationManager.java:47 | the full request-matcher test on the examples: `*` stays within one segment, `**` crosses segments |
| AntPath.Matches | user-admin-practice/src/main/java/org/rlv/security/DatabaseAuthorizationManager.java:47 | the pattern test of the request matcher; its behaviour is stated by AnyRunMatchesAll, LiteralSegMatch, GlobstarMatchesAll, SegmentsFixLength and GlobExamples |
| AntPath.MethodMatches | user-admin-practice/src/main/java/org/rlv/security/DatabaseAuthorizationManager.java:35 | a rule without an HTTP method fits every method, otherwise the names must be equal; used by RequestMatches and ExactNameComparison |
| ObjectPermission.HasPermissionForObject | user-admin-practice/src/main/java/org/rlv/security/DatabasePermissionEvaluator.java:19-34 | true iff an authentication is given, the target is an order, the permission is a string, and the order check passes for that order's id |
| ObjectPermission.HasPermissionForId | user-admin-practice/src/main/java/org/rlv/security/DatabasePermissionEvaluator.java:37-50 | true iff id, type and authentication are given, the permission is a string, the type is "Order" ignoring case, and the order check passes |
| ObjectPermission.MissingAuthorityIgnoresStore | user-admin-practice/src/main/java/org/rlv/security/DatabasePermissionEvaluator.java:54-58 | without the authority the answer is false and does not depend on the order store |
| ObjectPermission.CheckOrderPermission | user-admin-practice/src/main/java/org/rlv/security/DatabasePermissionEvaluator.java:52-66 | the authority check, then ownership of the stored order; stated by MissingAuthorityIgnoresStore and WithAuthorityOwnershipDecides |
| ObjectPermission.WithAuthorityOwnershipDecides | user-admin-practice/src/main/java/org/rlv/security/DatabasePermissionEvaluator.java:60-65 | with the authority the answer is exactly "the stored order exists and its owner is the principal"; a missing order gives false |
| ObjectPermission.OverloadsAgree | user-admin-practice/src/main/java/org/rlv/security/DatabasePermissionEvaluator.java:30 | both overloads give the same answer for the same order id and permission |
| ObjectPermission.StoredOwnerDecides | user-admin-practice/src/main/java/org/rlv/security/DatabasePermissionEvaluator.java:30 | the owner carried by the passed order object is ignored; the stored order decides |
| ObjectPermission.GuardsDeny | user-admin-practice/src/main/java/org/rlv/security/DatabasePermissionEvaluator.java:21-25 | a missing authentication, a non-string permission, a non-order target, or a missing id or type each give false |
| ObjectPermission.TypeNameCaseInsensitive | user-admin-practice/src/main/java/org/rlv/security/DatabasePermissionEvaluator.java:43 | "ORDER" and "order" are accepted as the type name, "Orders" is not |
| ObjectPermission.OtherTypeDenied | user-admin-practice/src/main/java/org/rlv/security/DatabasePermissionEvaluator.java:43-49 | any other type name gives false, even for the owner holding the authority |
| EndpointAuthorization.ReloadIsIdempotent | user-admin-practice/src/main/java/org/rlv/security/DatabaseAuthorizationManager.java:30-39 | two loads of an unchanged table leave the cache one load builds (from the rows before the first blank pattern), and the same decision before and after the second load |
| InventoryStorage.FilterIdsFresh | SmartInventory-main/server/storage.ts:248-250 | deleting entries keeps ids increasing and below the counter, so a deleted id is never handed out again |
| InventoryStorage.AppendIdsFresh | SmartInventory-main/server/storage.ts:161-166 | adding an entry under the counter and bumping it keeps ids increasing and below the counter |
| InventoryStorage.ApplyUpdate | SmartInventory-main/server/storage.ts:238-242 | the merged item keeps id and createdAt, takes each supplied field, keeps each omitted one, and gets lastUpdated = now |
| InventoryStorage.LowStockStoredCases | SmartInventory-main/server/storage.ts:255-258 | with a number threshold: low iff quantity < threshold; a null threshold is never low; an undefined one compares with 0 |
| InventoryStorage.TotalValueAppend | SmartInventory-main/server/storage.ts:280-281 | the summed value of two runs of items is the sum of their values |
| InventoryStorage.TotalValueNonNegative | SmartInventory-main/server/storage.ts:280-281 | with no negative prices or quantities the total value is not negative |
| InventoryStorage.EnrichWith | SmartInventory-main/server/storage.ts:295-304 | the item is kept; a name is attached iff the id is truthy and some category/location has it, and the name is that entry's |
| InventoryStorage.InsertByRecency | SmartInventory-main/server/storage.ts:264-266 | inserting into a newest-first list keeps it newest first and adds exactly that item |
| InventoryStorage.SortByRecency | SmartInventory-main/server/storage.ts:264-266 | the sort result is newest first and a permutation of the input |
| InventoryStorage.MostRecent | SmartInventory-main/server/storage.ts:263-267 | the sorted items sliced to limit: length is limit (clamped) or all but the last -limit for a negative limit, newest first, a sub-multiset of the items, and no item left out is newer than one kept |
| InventoryStorage.RecentPrefixIsNewest | SmartInventory-main/server/storage.ts:264-267 | of a newest-first list, the first n items are drawn from it and no item left out is newer than one kept |
| InventoryStorage.MostRecentKeepsAll | SmartInventory-main/server/storage.ts:263-267 | a limit at least the number of items returns every item, each as often as stored |
| InventoryStorage.MemStorage.constructor | SmartInventory-main/server/storage.ts:53-147 | all counters start at 1; after seeding there are users 1-2, categories 1-4, locations 1-4, items 1-5, and the next ids are 3, 5, 5, 6 |
| InventoryStorage.MemStorage.SeedDirectory | SmartInventory-main/server/storage.ts:64-86 | run on the empty store, the user, category and location seeding leaves those ids fresh and in list order, with the default users, categories and locations and the next ids 3, 5 and 5 |
| InventoryStorage.MemStorage.SeedUsers | SmartInventory-main/server/storage.ts:64-78 | the admin and staff users get ids 1 and 2 |
| InventoryStorage.MemStorage.SeedCategories | SmartInventory-main/server/storage.ts:80-82 | the four default categories get ids 1 to 4 in list order |
| InventoryStorage.MemStorage.SeedLocations | SmartInventory-main/server/storage.ts:84-86 | the four default locations get ids 1 to 4 in list order |
| InventoryStorage.MemStorage.SeedItems | SmartInventory-main/server/storage.ts:88-146 | the five sample items get ids 1 to 5 |
| InventoryStorage.MemStorage.GetUser | SmartInventory-main/server/storage.ts:151-153 | the user with that id, or none iff no user has it |
| InventoryStorage.MemStorage.GetUserByUsername | SmartInventory-main/server/storage.ts:155-159 | the first stored user with that user name, as `Array.find` returns it, or none iff no user has it |
| InventoryStorage.MemStorage.CreateUser | SmartInventory-main/server/storage.ts:161-166 | the user gets the current counter as id, is added last, and the counter goes up by one |
| InventoryStorage.MemStorage.GetCategoryById | SmartInventory-main/server/storage.ts:173-175 | the category with that id, or none iff no category has it |
| InventoryStorage.MemStorage.GetCategories | SmartInventory-main/server/storage.ts:169-171 | the stored categories in insertion order; in a valid store their ids ascend and are below the counter |
| InventoryStorage.MemStorage.CreateCategory | SmartInventory-main/server/storage.ts:177-182 | the category gets the current counter as id, is added last, and the counter goes up by one |
| InventoryStorage.MemStorage.GetLocationById | SmartInventory-main/server/storage.ts:189-191 | the location with that id, or none iff no location has it |
| InventoryStorage.MemStorage.GetLocations | SmartInventory-main/server/storage.ts:185-187 | the stored locations in insertion order; in a valid store their ids ascend and are below the counter |
| InventoryStorage.MemStorage.CreateLocation | SmartInventory-main/server/storage.ts:193-198 | the location gets the current counter as id, is added last, and the counter goes up by one |
| InventoryStorage.MemStorage.GetInventoryItems | SmartInventory-main/server/storage.ts:201-205 | every stored item, enriched, in insertion order |
| InventoryStorage.MemStorage.GetInventoryItemById | SmartInventory-main/server/storage.ts:207-211 | the enriched item with that id, or none iff no item has it |
| InventoryStorage.MemStorage.GetInventoryItemBySku | SmartInventory-main/server/storage.ts:213-219 | the first stored item with that SKU, enriched, or none iff no item has it |
| InventoryStorage.MemStorage.CreateInventoryItem | SmartInventory-main/server/storage.ts:221-232 | the item gets the current counter as id, an id above every stored one, both timestamps = now, and is added last |
| InventoryStorage.MemStorage.UpdateInventoryItem | SmartInventory-main/server/storage.ts:234-246 | an absent id returns none and changes nothing; a present one is merged in place and every other item is untouched |
| InventoryStorage.MemStorage.DeleteInventoryItem | SmartInventory-main/server/storage.ts:248-250 | true iff the id was present; afterwards no item has it and the others keep their order |
| InventoryStorage.MemStorage.GetLowStockItems | SmartInventory-main/server/storage.ts:253-260 | the stored items passing the server's low-stock test, in stored order, each enriched |
| InventoryStorage.MemStorage.LowStockItemsExact | SmartInventory-main/server/storage.ts:253-260 | an item appears in the low-stock list iff it is stored and passes the test |
| InventoryStorage.MemStorage.GetRecentlyUpdatedItems | SmartInventory-main/server/storage.ts:262-269 | the most recent items as MostRecent selects them, enriched |
| InventoryStorage.MemStorage.GetInventorySummary | SmartInventory-main/server/storage.ts:271-292 | totalItems is the item count, lowStockCount the low-stock list's length (never above it), totalValue the price-times-quantity sum, openOrders 7 |
| InventoryStorage.SeedLowStock | SmartInventory-main/server/storage.ts:88-146 | of the sample items, exactly the cable, the mouse and the adapter are low on stock |
| InventoryStorage.SeedTotalValue | SmartInventory-main/server/storage.ts:88-146 | the sample stock is worth 2333.89 |
| InventoryStorage.SeededStore | SmartInventory-main/server/storage.ts:221-232 | the first item created in a freshly seeded store gets id 6 |
| InventoryUtils.ClientAgreesWithServer | SmartInventory-main/client/src/lib/utils.ts:25-28 | the client and server low-stock tests differ only for an undefined threshold with a negative quantity |
| InventoryUtils.IsLowStock | SmartInventory-main/client/src/lib/utils.ts:25-28 | low iff a threshold is set and the quantity is below it; compared with the server query by ClientAgreesWithServer and used by StockColorCases |
| InventoryUtils.GetStockStatusColor | SmartInventory-main/client/src/lib/utils.ts:48-54 | the result is one of the four badge class strings |
| InventoryUtils.StockColorCases | SmartInventory-main/client/src/lib/utils.ts:48-54 | neutral iff there is no threshold; out of stock first; then warning iff low, success iff not |
| InventoryUtils.TruncateText | SmartInventory-main/client/src/lib/utils.ts:30-33 | short text is returned as is; longer text is its first maxLength characters plus "..." (length maxLength + 3) |
| InventoryUtils.GetInitials | SmartInventory-main/client/src/lib/utils.ts:35-42 | empty for an empty name, and never more than two characters |
| InventoryUtils.InitialsOfOneWord | SmartInventory-main/client/src/lib/utils.ts:38-39 | a one-word name gives its first letter in upper case |
| InventoryUtils.InitialsOfSeveralWords | SmartInventory-main/client/src/lib/utils.ts:41 | several words give the first letters of the first and last word in upper case |
| InventoryUtils.NestedDivisions | SmartInventory-main/client/src/lib/utils.ts:61-64 | the chained floor divisions of the elapsed milliseconds are floor divisions by a minute, an hour and a day |
| InventoryUtils.GetTimeAgo | SmartInventory-main/client/src/lib/utils.ts:56-72 | under a minute "just now"; then whole minutes, hours or days below 60, 24 and 30 with their suffixes; else the locale date |
| RoleProvider.CurrentRoleConfig | templates-react/role-glide-ui-flow/src/components/RoleProvider.tsx:82 | the guest configuration without a user, else the configuration of the user's role |
| RoleProvider.NoUserOnlyGuest | templates-react/role-glide-ui-flow/src/components/RoleProvider.tsx:70 | with no user exactly the 'guest' requirement passes |
| RoleProvider.AdminAndGuestExtremes | templates-react/role-glide-ui-flow/src/components/RoleProvider.tsx:72-79 | an admin passes every requirement; every signed-in user passes 'guest' |
| RoleProvider.HasPermissionMonotone | templates-react/role-glide-ui-flow/src/components/RoleProvider.tsx:79 | a higher-ranked role passes whatever a lower-ranked one passes |
| RoleProvider.HasPermission | templates-react/role-glide-ui-flow/src/components/RoleProvider.tsx:69-80 | the role-rank comparison; stated by NoUserOnlyGuest, AdminAndGuestExtremes, HasPermissionMonotone and RanksAreAChain |
| RoleProvider.RanksAreAChain | templates-react/role-glide-ui-flow/src/components/RoleProvider.tsx:72-79 | of two users one always passes the other's role, and both only when the roles are equal |
| RoleProvider.PassedRequirements | templates-react/role-glide-ui-flow/src/components/RoleProvider.tsx:72-79 | the requirements each role passes, listed role by role |
| RoleProvider.PermissionListsShape | templates-react/role-glide-ui-flow/src/components/RoleProvider.tsx:27-48 | admin's permissions include all of the manager's; every role views content; 'edit_own_content' is the contributor's only, so the lists are no chain |
| NavDrawer.VisibleItems | templates-react/role-glide-ui-flow/src/components/LeftNavDrawer.tsx:46-48 | an item is shown iff it has no required role or the user passes that role; the shown items keep the table's order |
| NavDrawer.GroupedItems | templates-react/role-glide-ui-flow/src/components/LeftNavDrawer.tsx:50-56 | the groups have distinct categories, each holding exactly the visible items of its category in order, and the group sizes add up to the footer count |
| NavDrawer.UnrestrictedAlwaysVisible | templates-react/role-glide-ui-flow/src/components/LeftNavDrawer.tsx:46-48 | an item without a required role is shown to everyone, signed in or not |
| NavDrawer.UnrestrictedItems | templates-react/role-glide-ui-flow/src/components/LeftNavDrawer.tsx:18-32 | exactly Profile, Alerts, Settings, Appearance and Help have no required role |
| NavDrawer.ManagerSeesAllButPermissions | templates-react/role-glide-ui-flow/src/components/LeftNavDrawer.tsx:22-27 | a manager sees every item except the admin-only Permissions entry |
| NavDrawer.LowRolesSeeUnrestricted | templates-react/role-glide-ui-flow/src/components/LeftNavDrawer.tsx:46-48 | a contributor, a guest or nobody sees exactly the unrestricted items |
| Grouping.GroupItems | templates-react/role-glide-ui-flow/src/components/LeftNavDrawer.tsx:50-56 | the in-place reduce over the list yields the groups the functional definition describes |
| Grouping.AddToAt | templates-react/role-glide-ui-flow/src/components/LeftNavDrawer.tsx:51-54 | pushing onto the group found at index i, or appending a new group when none has the key, is one step of the reduce |
| Grouping.AddToMembers | templates-react/role-glide-ui-flow/src/components/LeftNavDrawer.tsx:54 | a push adds the item at the end of its own group and leaves every other group's members alone |
| Grouping.AddToKeys | templates-react/role-glide-ui-flow/src/components/LeftNavDrawer.tsx:51-53 | a push keeps the keys, adding a new key last, and adds one member in all |
| Grouping.GroupAllSpec | templates-react/role-glide-ui-flow/src/components/LeftNavDrawer.tsx:50-56 | keys are distinct, each group is exactly the items with its key in order, a key has a group iff some item carries it, and sizes sum to the item count |
| Selection.Toggle | user-admin-practice-ui/src/pages/roles/RoleForm.tsx:62-69 | checking appends the id even if present; unchecking keeps exactly the other ids, in their order |
| Selection.Current | user-admin-practice-ui/src/pages/roles/RoleForm.tsx:29 | an unset selection reads as empty, a set one as itself |
| Selection.ToggleShows | user-admin-practice-ui/src/pages/users/UserForm.tsx:69-76 | after a change the box shows what was chosen and no other box changes |
| Selection.CheckThenUncheck | user-admin-practice-ui/src/pages/roles/RoleForm.tsx:62-69 | checking an unchecked id and unchecking it again gives the selection back |
| Selection.UncheckIdempotent | user-admin-practice-ui/src/pages/roles/RoleForm.tsx:66-67 | unchecking twice is unchecking once |
| PointOfSale.FilteredProducts | templates-react/scrollnshop-point-of-sale/src/pages/Index.tsx:53-55 | "all" gives the whole catalogue; any other category exactly the products of that category in catalogue order, never more than the catalogue |
| PointOfSale.AddToCart | templates-react/scrollnshop-point-of-sale/src/pages/Index.tsx:57-68 | a product without a line gets a new line with quantity 1 at the end; otherwise only its line's quantity grows by one and the length is unchanged |
| PointOfSale.RemoveItem | templates-react/scrollnshop-point-of-sale/src/pages/Index.tsx:88-89 | exactly the lines with other ids remain, in cart order, and none with that id |
| PointOfSale.UpdateQuantity | templates-react/scrollnshop-point-of-sale/src/pages/Index.tsx:76-86 | a quantity of 0 or less removes the line; otherwise only that line's quantity becomes the new one |
| PointOfSale.Checkout | templates-react/scrollnshop-point-of-sale/src/pages/Index.tsx:97-104 | the charge is the cart total and the cart becomes empty |
| PointOfSale.AddToCartWellFormed | templates-react/scrollnshop-point-of-sale/src/pages/Index.tsx:57-68 | adding keeps at most one line per id and every quantity at least 1, and the product then has a line |
| PointOfSale.UpdateQuantityWellFormed | templates-react/scrollnshop-point-of-sale/src/pages/Index.tsx:76-86 | updating a quantity keeps at most one line per id and every quantity at least 1 |
| PointOfSale.RemoveWellFormed | templates-react/scrollnshop-point-of-sale/src/pages/Index.tsx:88-89 | removing keeps at most one line per id and every quantity at least 1 |
| PointOfSale.FilterUniqueIds | templates-react/scrollnshop-point-of-sale/src/pages/Index.tsx:89 | filtering a cart without duplicate ids leaves none |
| PointOfSale.BumpTotal | templates-react/scrollnshop-point-of-sale/src/pages/Index.tsx:61-65 | one more unit on a line adds that line's price to the total |
| PointOfSale.NoLineNoPrice | templates-react/scrollnshop-point-of-sale/src/pages/Index.tsx:59 | a cart without the id has no price for it |
| PointOfSale.NoLineUnchanged | templates-react/scrollnshop-point-of-sale/src/pages/Index.tsx:61-65 | bumping an id no line carries changes nothing |
| PointOfSale.CartTotalAppend | templates-react/scrollnshop-point-of-sale/src/pages/Index.tsx:98 | the total of two carts end to end is the sum of their totals |
| PointOfSale.AddToCartTotal | templates-react/scrollnshop-point-of-sale/src/pages/Index.tsx:57-68 | adding a product raises the checkout total by one unit price: the line's, or the product's for a new line |
| PointOfSale.RemoveItemTotal | templates-react/scrollnshop-point-of-sale/src/pages/Index.tsx:88-89 | removing a line lowers the total by exactly that line's price times quantity |
| PointOfSale.CartTotal | templates-react/scrollnshop-point-of-sale/src/pages/Index.tsx:98 | the sum of price times quantity over the lines; stated by CartTotalAppend, AddToCartTotal and RemoveItemTotal |
| PointOfSale.NoLineNoAmount | templates-react/scrollnshop-point-of-sale/src/pages/Index.tsx:89 | a cart without the id owes nothing for it |
| StationStore.OrdersOf | water-station-tracker/src/store/stations.ts:34 | exactly the orders of that station, in stored order |
| StationStore.DeliveriesOf | water-station-tracker/src/store/stations.ts:35 | exactly the deliveries of that station, in stored order |
| StationStore.InventoryOf | water-station-tracker/src/store/stations.ts:36 | exactly the inventory entries of that station, in stored order |
| StationStore.StationIn | water-station-tracker/src/store/stations.ts:33 | the first station with that id, or none iff no station has it |
| StationStore.WithOrderStatus | water-station-tracker/src/store/stations.ts:39-40 | same length; orders with that id get the new status, every other order is kept |
| StationStore.WithDeliveryStatus | water-station-tracker/src/store/stations.ts:41-42 | same length; deliveries with that id get the new status, every other delivery is kept |
| StationStore.UnknownOrderUnchanged | water-station-tracker/src/store/stations.ts:39-40 | an unknown order id changes nothing |
| StationStore.UnknownDeliveryUnchanged | water-station-tracker/src/store/stations.ts:41-42 | an unknown delivery id changes nothing |
| StationStore.OrderStatusOnlyStatus | water-station-tracker/src/store/stations.ts:39-40 | only the status field moves, and a second status update overrides the first |
| StationStore.DeliveryStatusOnlyStatus | water-station-tracker/src/store/stations.ts:41-42 | only the status field moves, and a second status update overrides the first |
| StationStore.AddOrderView | water-station-tracker/src/store/stations.ts:38 | a new order shows up first in its own station's list, and every other station's list is unchanged |
| StationStore.StatusUpdateCommutesWithSelect | water-station-tracker/src/store/stations.ts:34-40 | updating a status then selecting a station equals selecting then updating |
| StationStore.SelectionsKeepOrder | water-station-tracker/src/store/stations.ts:34-36 | selecting a station from two lists end to end gives the selections of each, end to end |
| StationStore.Store.constructor | water-station-tracker/src/store/stations.ts:25-31 | the store starts from the given collections |
| StationStore.Store.StationById | water-station-tracker/src/store/stations.ts:33 | the first stored station with that id (`Array.find`), or none iff there is none |
| StationStore.Store.OrdersByStation | water-station-tracker/src/store/stations.ts:34 | exactly the stored orders of that station, in stored order |
| StationStore.Store.DeliveriesByStation | water-station-tracker/src/store/stations.ts:35 | exactly the stored deliveries of that station, in stored order |
| StationStore.Store.InventoryByStation | water-station-tracker/src/store/stations.ts:36 | exactly the stored inventory of that station, in stored order |
| StationStore.Store.AddOrder | water-station-tracker/src/store/stations.ts:38 | the order is put first, the station's view gains it first, and no other collection changes |
| StationStore.Store.UpdateOrderStatus | water-station-tracker/src/store/stations.ts:39-40 | the orders become the status-updated copy; nothing else changes |
| StationStore.Store.UpdateDeliveryStatus | water-station-tracker/src/store/stations.ts:41-42 | the deliveries become the status-updated copy; nothing else changes |
| StationStore.ActionsTouchOnlyTheirCollection | water-station-tracker/src/store/stations.ts:38-42 | after the three actions, stations, customers, drivers and inventory are as before |
| SidebarMenu.GetMenuItems | templates-react/bolt-sidenav-template/src/components/Sidebar.tsx:26-44 | the menu built by the pushes is the menu meant for the user's role |
| SidebarMenu.MenuShape | templates-react/bolt-sidenav-template/src/components/Sidebar.tsx:26-44 | every menu starts with the overview and ends with delivery, repeats no id, riders get no sales, inventory or orders, and owners and managers (only they) get five items |
| SidebarMenu.GetRoleColor | templates-react/bolt-sidenav-template/src/components/Sidebar.tsx:48-55 | the colour is one of the three role colours |
| SidebarMenu.RoleColorsDistinct | templates-react/bolt-sidenav-template/src/components/Sidebar.tsx:48-55 | two roles share a badge colour iff they are the same role |
| DeliveryPage.Visible | templates-react/bolt-sidenav-template/src/components/pages/DeliveryPage.tsx:83-88 | owners and managers see all deliveries; a rider exactly the deliveries assigned to them |
| DeliveryPage.FilteredDeliveries | templates-react/bolt-sidenav-template/src/components/pages/DeliveryPage.tsx:82-99 | a delivery is listed iff the user may see it, customer or order id contains the search term ignoring case, and the status filter is 'all' or its status |
| DeliveryPage.FilterShape | templates-react/bolt-sidenav-template/src/components/pages/DeliveryPage.tsx:82-99 | an empty search with 'all' lists every visible delivery; otherwise the list is one order-preserving filter of the deliveries |
| DeliveryPage.CounterBounds | templates-react/bolt-sidenav-template/src/components/pages/DeliveryPage.tsx:101-104 | the listed deliveries never exceed the total, and active plus completed never exceed the listed ones |
| DeliveryPage.TotalDeliveries | templates-react/bolt-sidenav-template/src/components/pages/DeliveryPage.tsx:102 | the count of deliveries the user may see; bounded by CounterBounds |
| DeliveryPage.ActiveDeliveries | templates-react/bolt-sidenav-template/src/components/pages/DeliveryPage.tsx:103 | the count of listed deliveries picked up or in transit; bounded by CounterBounds |
| DeliveryPage.CompletedToday | templates-react/bolt-sidenav-template/src/components/pages/DeliveryPage.tsx:104 | the count of listed deliveries delivered; bounded by CounterBounds |
| DeliveryPage.NextStatusAdvances | templates-react/bolt-sidenav-template/src/components/pages/DeliveryPage.tsx:259-282 | a rider's button moves exactly one stage forward: assigned, picked-up, in-transit, delivered; pending and delivered have none |
| DeliveryPage.NextStatus | templates-react/bolt-sidenav-template/src/components/pages/DeliveryPage.tsx:259-282 | the status a rider's button moves to; NextStatusAdvances states it is exactly one stage on |
| DeliveryPage.RiderAction | templates-react/bolt-sidenav-template/src/components/pages/DeliveryPage.tsx:257-284 | a button is offered iff the user is a rider, the delivery is assigned to them and its status has a next one, and it moves to that status |
| DeliveryPage.ManagerActions | templates-react/bolt-sidenav-template/src/components/pages/DeliveryPage.tsx:286-297 | "Assign Rider" iff an owner or manager views a pending delivery; "View Details" iff the user is an owner or manager |
| DeliveryPage.ActionsExclusive | templates-react/bolt-sidenav-template/src/components/pages/DeliveryPage.tsx:257-297 | no user gets both rider and manager buttons on one card |
| DeliveryPage.GetStatusColor | templates-react/bolt-sidenav-template/src/components/pages/DeliveryPage.tsx:70-79 | unknown statuses share the pending grey, and every other known status has its own colour |
| ContactTypes.WithId | templates-react/bolt-super-template/src/App.tsx:40-43 | the note carries the given id and every field of the draft |
| NoteEntry.AddTagTo | templates-react/bolt-super-template/src/components/NoteEntry.tsx:51-56 | a blank input or one already a tag changes nothing and keeps the input; otherwise the trimmed input is appended and the input cleared |
| NoteEntry.RemoveTagFrom | templates-react/bolt-super-template/src/components/NoteEntry.tsx:58-60 | exactly the other tags remain, in their order, never more than before |
| NoteEntry.AddTagKeepsClean | templates-react/bolt-super-template/src/components/NoteEntry.tsx:51-56 | adding keeps the tags free of blanks and duplicates |
| NoteEntry.RemoveTagKeepsClean | templates-react/bolt-super-template/src/components/NoteEntry.tsx:58-60 | removing keeps the tags free of blanks and duplicates |
| NoteEntry.DistinctFilter | templates-react/bolt-super-template/src/components/NoteEntry.tsx:59 | filtering a duplicate-free list leaves it duplicate-free |
| NoteEntry.AddThenRemove | templates-react/bolt-super-template/src/components/NoteEntry.tsx:51-60 | removing a tag that was just added gives the old list back |
| NoteEntry.Form.constructor | templates-react/bolt-super-template/src/components/NoteEntry.tsx:13-19 | a fresh dialog has no contact, empty content, type 'note', neutral sentiment, no tags and an empty tag input |
| NoteEntry.Form.AddTag | templates-react/bolt-super-template/src/components/NoteEntry.tsx:51-56 | the tags and the input become what AddTagTo gives; the tag list stays clean |
| NoteEntry.Form.RemoveTag | templates-react/bolt-super-template/src/components/NoteEntry.tsx:58-60 | the tags become what RemoveTagFrom gives; the tag list stays clean |
| NoteEntry.Form.HandleSave | templates-react/bolt-super-template/src/components/NoteEntry.tsx:21-49 | without a contact or with blank content nothing changes and nothing is saved; otherwise the note with trimmed content and the current tags, sentiment and type is handed over, the form is reset and the dialog closes |
| ContactsApp.ToggleStar | templates-react/bolt-super-template/src/App.tsx:18-24 | same length; contacts with that id have starred flipped, every other contact is kept |
| ContactsApp.CompleteReminder | templates-react/bolt-super-template/src/App.tsx:26-32 | same length; reminders with that id are marked completed, every other reminder is kept |
| ContactsApp.SaveNote | templates-react/bolt-super-template/src/App.tsx:39-57 | the note with its new id is appended to the notes; the contacts with its contact id get it appended and lastContact = now, the others are kept |
| ContactsApp.ToggleStarTwice | templates-react/bolt-super-template/src/App.tsx:18-24 | starring twice gives the contacts back |
| ContactsApp.CompleteReminderIdempotent | templates-react/bolt-super-template/src/App.tsx:26-32 | completing twice is completing once, and the matching reminders end up completed |
| ContactsApp.ToggleStarCount | templates-react/bolt-super-template/src/App.tsx:18-24 | with a unique id, toggling changes the starred count by exactly one in the right direction |
| ContactsApp.NoMatchUnchanged | templates-react/bolt-super-template/src/App.tsx:18-24 | an unknown id changes no contact |
| ContactsApp.SaveNoteAddsOne | templates-react/bolt-super-template/src/App.tsx:39-57 | one more note in the global list, the note last in its contact's list, and every other contact unchanged |
| TodoList.AddTodo | templates-react/link-blog-dream/src/components/TodoList.tsx:21-37 | blank input changes nothing; otherwise a not-completed to-do holding the text as typed goes first and the input is cleared |
| TodoList.ToggleTodo | templates-react/link-blog-dream/src/components/TodoList.tsx:39-43 | same length; to-dos with that id have completed flipped, every other is kept |
| TodoList.DeleteTodo | templates-react/link-blog-dream/src/components/TodoList.tsx:45-46 | exactly the to-dos with other ids remain, in their order |
| TodoList.CompletedCount | templates-react/link-blog-dream/src/components/TodoList.tsx:53 | the completed count never exceeds the list length |
| TodoList.ToggleTwice | templates-react/link-blog-dream/src/components/TodoList.tsx:39-43 | toggling twice restores the list |
| TodoList.ToggleCount | templates-react/link-blog-dream/src/components/TodoList.tsx:39-43 | toggling the one to-do with that id moves the completed count by exactly one in the right direction |
| TodoList.CompletedPlusOpen | templates-react/link-blog-dream/src/components/TodoList.tsx:53 | completed and open to-dos together number the list's length |
| TodoList.AddKeepsCompleted | templates-react/link-blog-dream/src/components/TodoList.tsx:21-37 | adding a to-do leaves the completed count unchanged |
| TodoList.AddThenDelete | templates-react/link-blog-dream/src/components/TodoList.tsx:21-46 | adding a to-do with a fresh id and deleting it gives the list back |
| BlogCreator.GenerateExcerpt | templates-react/link-blog-dream/src/components/BlogCreator.tsx:26-28 | content of at most 150 characters as is; longer content cut to 150 plus "..."; never longer than 153 |
| BlogCreator.EditedPosts | templates-react/link-blog-dream/src/components/BlogCreator.tsx:44-54 | same length; the post with that id takes the new title, content, excerpt and updatedAt and keeps id and createdAt; others are kept |
| BlogCreator.WithoutPost | templates-react/link-blog-dream/src/components/BlogCreator.tsx:87-88 | exactly the posts with other ids remain, in their order |
| BlogCreator.UpdatedBadge | templates-react/link-blog-dream/src/components/BlogCreator.tsx:182 | a new post shows no "Updated" badge; an edited one shows it iff it was edited at another time than its creation |
| BlogCreator.EditKeepsIdentity | templates-react/link-blog-dream/src/components/BlogCreator.tsx:46-52 | editing never changes a post's id or creation time |
| BlogCreator.Editor.constructor | templates-react/link-blog-dream/src/components/BlogCreator.tsx:20-23 | no posts, not writing, empty form, nothing being edited |
| BlogCreator.Editor.SaveBlogPost | templates-react/link-blog-dream/src/components/BlogCreator.tsx:30-79 | an empty title or content changes nothing; with a non-empty id being edited that post is rewritten; otherwise a new post with createdAt = updatedAt goes first; then the form is cleared and closed |
| BlogCreator.Editor.EditPost | templates-react/link-blog-dream/src/components/BlogCreator.tsx:81-85 | the form holds the post's title and content, its id is being edited, and writing is on |
| BlogCreator.Editor.DeletePost | templates-react/link-blog-dream/src/components/BlogCreator.tsx:87-88 | the posts become WithoutPost of the old ones: those with that id go, the rest keep their order |
| BlogCreator.Editor.CancelEditing | templates-react/link-blog-dream/src/components/BlogCreator.tsx:95-99 | the form is cleared and closed and the posts stay as they are |
| BlogCreator.EditAndSave | templates-react/link-blog-dream/src/components/BlogCreator.tsx:42-78 | loading a post and saving without changes rewrites only its excerpt and update time, and leaves the editor idle |
| LinkOrganizer.AddLink | templates-react/link-blog-dream/src/components/LinkOrganizer.tsx:23-47 | an empty title or URL changes nothing; otherwise the link goes first with category "General" when left empty, and the form is cleared |
| LinkOrganizer.DeleteLink | templates-react/link-blog-dream/src/components/LinkOrganizer.tsx:49-50 | exactly the links with other ids remain, in their order |
| LinkOrganizer.AddedCategoryNonEmpty | templates-react/link-blog-dream/src/components/LinkOrganizer.tsx:37 | a saved link never has an empty category |
| LinkOrganizer.Dedup | templates-react/link-blog-dream/src/components/LinkOrganizer.tsx:57 | each value once, and exactly the values of the input |
| LinkOrganizer.DedupPrefix | templates-react/link-blog-dream/src/components/LinkOrganizer.tsx:57 | the values first met in a prefix keep their places at the front, so order is that of first appearance |
| LinkOrganizer.Categories | templates-react/link-blog-dream/src/components/LinkOrganizer.tsx:57 | each category once, and exactly the categories some link has |
| LinkOrganizer.FilteredLinks | templates-react/link-blog-dream/src/components/LinkOrganizer.tsx:58-60 | "all" gives every link; any other category exactly its links, in order |
| LinkOrganizer.CountsSumToTotal | templates-react/link-blog-dream/src/components/LinkOrganizer.tsx:102-113 | the category buttons' counts add up to the "All" count, and a category is listed iff its count is positive |
| LinkOrganizer.ListedIffCounted | templates-react/link-blog-dream/src/components/LinkOrganizer.tsx:102-113 | a category has a button iff its count is positive |
| LinkOrganizer.SumCountsAddLink | templates-react/link-blog-dream/src/components/LinkOrganizer.tsx:113 | one more link adds one to the summed counts iff its category is among those summed |
| TeamManagement.FilteredMembers | templates-react/role-glide-ui-flow/src/components/pages/TeamManagementPage.tsx:82-89 | a member is shown iff name or email contains the search ignoring case, and the role and status filters are 'all' or equal to the member's; the shown members keep the list's order |
| TeamManagement.NoFilterShowsAll | templates-react/role-glide-ui-flow/src/components/pages/TeamManagementPage.tsx:82-89 | no search with both filters at 'all' shows every member in order |
| TeamManagement.DeleteMember | templates-react/role-glide-ui-flow/src/components/pages/TeamManagementPage.tsx:101-106 | exactly the members with other ids remain, in their order |
| TeamManagement.SaveMember | templates-react/role-glide-ui-flow/src/components/pages/TeamManagementPage.tsx:120-146 | adding appends the dialog's member under the fresh id; editing keeps the length and replaces the edited member's fields under its old id, keeping the rest |
| TeamManagement.SaveKeepsIds | templates-react/role-glide-ui-flow/src/components/pages/TeamManagementPage.tsx:120-140 | editing keeps every id in place, and with a fresh id for an addition ids stay unique |
| TeamManagement.DeleteOne | templates-react/role-glide-ui-flow/src/components/pages/TeamManagementPage.tsx:106 | with unique ids, deleting a present id shortens the list by exactly one |
| RealEstateTasks.ToggleTask | project-real-estate-final/src/pages/Tasks.tsx:70-74 | same length; tasks with that id have completed flipped, every other is kept |
| RealEstateTasks.FilteredTasks | project-real-estate-final/src/pages/Tasks.tsx:76-80 | 'completed' keeps exactly the completed tasks, 'pending' exactly the others, both in list order, and any other value keeps all |
| RealEstateTasks.ViewsPartition | project-real-estate-final/src/pages/Tasks.tsx:76-82 | each task is in exactly one of the two views; the pending and completed counts sum to the total |
| RealEstateTasks.OverdueWithinPending | project-real-estate-final/src/pages/Tasks.tsx:82-85 | overdue tasks are among the pending ones, and none are overdue when all are completed |
| RealEstateTasks.PendingCount | project-real-estate-final/src/pages/Tasks.tsx:82 | the number of open tasks; ViewsPartition states it plus the completed count is the total |
| RealEstateTasks.OverdueCount | project-real-estate-final/src/pages/Tasks.tsx:83-85 | the number of open tasks due before now; OverdueWithinPending bounds it by the pending count |
| RealEstateTasks.ToggleTwice | project-real-estate-final/src/pages/Tasks.tsx:70-74 | toggling twice gives the list back |
| RoleForm.PermissionsByResource | user-admin-practice-ui/src/pages/roles/RoleForm.tsx:78-84 | one group per resource, distinct, each holding exactly that resource's permissions in list order; a resource has a group iff some permission has it; the groups hold every permission once |
| RoleForm.Submit | user-admin-practice-ui/src/pages/roles/RoleForm.tsx:39-55 | an update of the route's role iff a route id is present, else a create; both carry name, description and permission ids as they are |
| RoleForm.Form.constructor | user-admin-practice-ui/src/pages/roles/RoleForm.tsx:27 | an empty form whose permission ids were never set |
| RoleForm.Form.Prefill | user-admin-practice-ui/src/pages/roles/RoleForm.tsx:31-37 | the form holds the role's name, its description or empty, and the ids of its permissions in order |
| RoleForm.Form.HandlePermissionChange | user-admin-practice-ui/src/pages/roles/RoleForm.tsx:62-69 | the permission ids become set, to the checkbox toggle of the old selection read as empty when unset |
| RoleForm.Form.OnSubmit | user-admin-practice-ui/src/pages/roles/RoleForm.tsx:39-55 | the request is the one Submit builds from the current fields |
| RoleForm.ValidateName | user-admin-practice-ui/src/pages/roles/RoleForm.tsx:108 | the "Role name is required" error iff the name is empty |
| RoleForm.Form.HandleSubmit | user-admin-practice-ui/src/pages/roles/RoleForm.tsx:105-108 | the error is the name rule's verdict; a request is sent iff the name is non-empty, and it is the one Submit builds |
| RoleForm.EditUnchanged | user-admin-practice-ui/src/pages/roles/RoleForm.tsx:31-108 | prefilling from a role and submitting unchanged sends the role's own fields as an update, iff its name is non-empty |
| RoleForm.UntouchedCreate | user-admin-practice-ui/src/pages/roles/RoleForm.tsx:27-108 | a create typed in without touching any checkbox is sent iff the name is non-empty, and leaves the permission ids out |
| RoleForm.FirstCheck | user-admin-practice-ui/src/pages/roles/RoleForm.tsx:27-108 | checking one box on a fresh form and submitting sends exactly that id, iff the name is non-empty |
| UserForm.LastIndexOf | user-admin-practice-ui/src/pages/users/UserForm.tsx:117 | the position of the last occurrence of the character, or none iff it does not occur |
| UserForm.EmailCheckCorrect | user-admin-practice-ui/src/pages/users/UserForm.tsx:117 | the first-'@'/last-dot scan accepts exactly the strings the e-mail pattern describes |
| UserForm.EmailCheckSound | user-admin-practice-ui/src/pages/users/UserForm.tsx:117 | a string the first-'@'/last-dot scan accepts matches the e-mail pattern |
| UserForm.EmailCheckComplete | user-admin-practice-ui/src/pages/users/UserForm.tsx:117 | a string matching the e-mail pattern is accepted by the scan |
| UserForm.FirstAt | user-admin-practice-ui/src/pages/users/UserForm.tsx:117 | in a match of the pattern the '@' is the first one |
| UserForm.LastIndexIs | user-admin-practice-ui/src/pages/users/UserForm.tsx:117 | a position holding the character with none after it is the last index |
| UserForm.Validate | user-admin-practice-ui/src/pages/users/UserForm.tsx:105-136 | username error iff empty; e-mail error iff empty or not matching the pattern; password error iff empty on create, or non-empty and shorter than 6 |
| UserForm.Submit | user-admin-practice-ui/src/pages/users/UserForm.tsx:42-62 | an update iff a route id is present, carrying the password only when non-empty; otherwise a create that always carries it |
| UserForm.ValidSubmitCarriesGoodPassword | user-admin-practice-ui/src/pages/users/UserForm.tsx:42-136 | after validation passes, a create carries a password of at least 6, an update none or such a password, and the e-mail matches the pattern |
| UserForm.Form.constructor | user-admin-practice-ui/src/pages/users/UserForm.tsx:30 | an empty form whose role ids were never set |
| UserForm.Form.Prefill | user-admin-practice-ui/src/pages/users/UserForm.tsx:34-40 | the form holds the user's name, e-mail and the ids of its roles in order |
| UserForm.Form.HandleRoleChange | user-admin-practice-ui/src/pages/users/UserForm.tsx:69-76 | the role ids become set, to the checkbox toggle of the old selection read as empty when unset |
| UserForm.Form.HandleSubmit | user-admin-practice-ui/src/pages/users/UserForm.tsx:42-62 | the errors are the validation of the fields; a request is sent iff there are none, and it is the one Submit builds |
| UserForm.CreateWithoutRoles | user-admin-practice-ui/src/pages/users/UserForm.tsx:30-62 | a create submitted without touching any role checkbox is sent iff validation passes, and leaves the role ids out |
| PageTitle.GetPageTitle | user-admin-practice-ui/src/components/layout/Layout.tsx:18-35 | a path with a non-empty table title gets it; else "/users/edit/" gives Edit User, then "/roles/edit/" Edit Role, else Admin Dashboard |
| PageTitle.TableShape | user-admin-practice-ui/src/components/layout/Layout.tsx:6-12 | table titles are non-empty and no table path starts with an edit prefix, so exact matches are never overridden; the prefixes are exclusive |
| PageTitle.EditPages | user-admin-practice-ui/src/components/layout/Layout.tsx:27-32 | any path under "/users/edit/" gets Edit User and any under "/roles/edit/" Edit Role |
| Text.TrimShape | templates-react/bolt-super-template/src/components/NoteEntry.tsx:52 | the trimmed text is a contiguous piece of the input with no white space at either end |
| Text.TrimEmptyIffAllSpace | templates-react/link-blog-dream/src/components/TodoList.tsx:22 | the trimmed text is empty (falsy) exactly when the input is all white space |
| Text.TrimIdempotent | templates-react/bolt-super-template/src/components/NoteEntry.tsx:52-53 | trimming the trimmed tag again changes nothing |
| Text.IncludesSpec | templates-react/bolt-sidenav-template/src/components/pages/DeliveryPage.tsx:92-93 | the left-to-right scan finds the term exactly when it occurs somewhere in the text |
| Text.IncludesEmpty | templates-react/role-glide-ui-flow/src/components/pages/TeamManagementPage.tsx:83-84 | the empty search term is found in every string |
| Text.NatToString | SmartInventory-main/client/src/lib/utils.ts:67-69 | the decimal digits of the number, no leading zero, denoting exactly that number |
| Text.SplitOn | SmartInventory-main/client/src/lib/utils.ts:38 | at least one part, no part holds the separator, and joining the parts with it gives the input back |
| Text.SplitAppend | SmartInventory-main/client/src/lib/utils.ts:38 | splitting around one separator splits each side on its own |

## Left out

- Concurrency of the permission cache: `LoadPermissions` and `Check` run one after the other. The window in which a concurrent `check` sees a cleared or half-filled cache is not modelled.
- Iteration order of the concurrent hash map is taken to be insertion order. A map update keeps an existing key in its place. Java does not promise either, so "first match" means first in that order.
- Spring's `AntPathMatcher` is not part of this model. `AntPath` is an own matcher with the same conventions: `?`, `*`, `{name}` (no `{name:regex}` form), `**`, and the `/**` catch-all. It does not model trimming of tokens, case-insensitive matching options, trailing-slash handling or the captured variable values. The query string and the servlet path split are also left out.
- HTTP methods are compared exactly, as `HttpMethod.valueOf` builds them. Descriptions of the matcher that speak of a case-insensitive method comparison are not followed; the code is.
- The guard of the object overload is not valid Java as written (a `|` split across two lines). It is modelled as the logical or of the three conditions.
- EndpointAuthorization.DatabaseAuthorizationManager.constructor: requires a table without blank patterns. A blank pattern makes the matcher's constructor throw during the first load, so the source builds no manager at all; `LoadPermissions` models that throw for later loads (it stops there, keeping the entries of the earlier rows).
- EndpointAuthorization.DatabaseAuthorizationManager.LoadPermissions: the thrown exception itself is not modelled; the load reports it as `completed == false`.
- A null authentication from the supplier, and a null permission on a row, throw in the source. The model takes both as present. The casts `(Long) targetId` and `(User) authentication.getPrincipal()` are modelled by the types: an integer id and a principal carrying its user id.
- The repositories and JPA entities (`EndpointPermissionRepository`, `OrderRepository`, `Order`, `User`) are not part of this model. The table is passed in as rows, and the order store is a map from order id to owner id.
- RoleForm.PermissionsByResource: resource names are taken never to be integer-like. A JavaScript object lists such keys first, in ascending numeric order, and the grouping does not model that.
- InventoryStorage.MemStorage.constructor: the seeding calls `new Date()` once per seeded item and per created record. The model passes one timestamp `now` for all of them, so the seeded timestamps are equal rather than a few milliseconds apart.
- Prices are whole cents and quantities integers. JavaScript's floating point, `NaN` and `toFixed` rounding are not modelled.
- Dates are millisecond timestamps passed in by the caller: `new Date()`, `Date.now()`, the parsing of `dueDate` (an unparsable date would compare false), and `toLocaleDateString` (its result is a parameter of `GetTimeAgo`).
- Fresh ids from `crypto.randomUUID`, `Math.random` and `Date.now().toString()` are parameters. Lemmas that need them fresh say so in their preconditions.
- Letter case is ASCII only: `toLowerCase`, `toUpperCase` and `equalsIgnoreCase` are not modelled beyond A-Z.
- Nothing UI-related is modelled:
  - toasts, navigation, loading states, the mutation hooks and the server calls they make;
  - the `Number(id)` conversion of route ids (the route id stays a string);
  - icons and markup.
- `formatCurrency`, `formatNumber`, `cn` and `getAuthToken` in the inventory client utilities: `Intl` formatting, class-name merging and `localStorage`.
- The sample data of the pages (products, deliveries, team members, contacts, notes, reminders, tasks, stations) is not modelled. The navigation drawer's item table and the inventory server's seed data are.
- DeliveryPage: `handleStatusUpdate` only logs, so a rider's button changes no data in the model either. The "Contact Customer" button, shown on every card, is not modelled.
- DeliveryPage.GetStatusColor: states that unknown statuses share the pending grey and that known non-pending statuses differ from it. It does not state which class each status gets, nor that those classes differ from one another.
- SidebarMenu.GetRoleColor: the grey fallback of the source cannot be reached, because the role type has exactly the three roles the login form produces.
- PointOfSale.AddToCart: the cart line keeps id, name, price and quantity. The product's image and category, copied in by the spread, are not kept.
- InventoryStorage.MostRecent: states newest-first order, the length and that the kept items are the newest ones, but not which of several items with equal `lastUpdated` are kept or how they are ordered (the engine's sort stability).
- NoteEntry.Form.HandleSave: the one-second wait and the intermediate `isSaving = true` state are not modelled; the method ends in the state after the save.
- TeamManagement.SaveMember: the dialog's open flag is not modelled. The `try`/`catch` error toasts cannot be reached with the network call commented out in the source.
- UserForm.Validate: the form library is taken to skip pattern and length rules on an empty value and to report the first failing rule per field. Its error messages are the constants of the form.
- RoleForm.ValidateName: as for the user form, `required` is taken to fail only on the empty string; a name of spaces passes.
