/** The user picker of src/components/chat/NewChatModal.jsx: the default
    listing, the search, and the reset when the modal closes. The user
    collection read is a parameter. */
module NewChat {
  import opened Common
  import opened Sorting
  import opened ChatService

  /** The fields of a user document the picker reads. */
  datatype UserDoc = UserDoc(id: string, uid: Option<string>, displayName: Option<string>, email: Option<string>)

  const ListingCap: int := 50

  /** `(a.displayName || '').toLowerCase()`. */
  function NameKey(u: UserDoc): string {
    Lower(OrElse(u.displayName, ""))
  }

  /** The listing comparator, with `localeCompare` read as code-point order. */
  function NameLe(a: UserDoc, b: UserDoc): bool {
    LexLe(NameKey(a), NameKey(b))
  }

  lemma NameLeIsPreorder()
    ensures TotalPreorder(NameLe)
  {
    forall a: UserDoc, b: UserDoc ensures NameLe(a, b) || NameLe(b, a) {
      LexLeTotal(NameKey(a), NameKey(b));
    }
    forall a: UserDoc, b: UserDoc, c: UserDoc | NameLe(a, b) && NameLe(b, c) ensures NameLe(a, c) {
      LexLeTransitive(NameKey(a), NameKey(b), NameKey(c));
    }
  }

  /** The listing filter (NewChatModal.jsx:38): a uid, and not the viewer. */
  predicate Listable(u: UserDoc, me: string) {
    Truthy(u.uid) && u.uid.value != me
  }

  function ListableUsers(users: seq<UserDoc>, me: string): (r: seq<UserDoc>)
    ensures forall u :: u in r <==> u in users && Listable(u, me)
  {
    if users == [] then []
    else (if Listable(users[0], me) then [users[0]] else []) + ListableUsers(users[1..], me)
  }

  /** `fetchUsers`' list (NewChatModal.jsx:33-44). */
  function Listing(users: seq<UserDoc>, me: string): seq<UserDoc> {
    Take(SortBy(ListableUsers(users, me), NameLe), ListingCap)
  }

  /** The listing is a prefix of the sorted listable users, as long as
      the cap allows, and nobody left out sorts before a listed user. */
  lemma {:induction false} ListingIsSortedPrefix(users: seq<UserDoc>, me: string)
    ensures var r := Listing(users, me);
            var all := SortBy(ListableUsers(users, me), NameLe);
            && |r| == (if |ListableUsers(users, me)| < ListingCap then |ListableUsers(users, me)| else ListingCap)
            && r == all[..|r|]
            && multiset(all) == multiset(ListableUsers(users, me))
            && Sorted(all, NameLe)
            && (forall i, j :: 0 <= i < |r| <= j < |all| ==> LexLe(NameKey(r[i]), NameKey(all[j])))
  {
    var listable := ListableUsers(users, me);
    var all := SortBy(listable, NameLe);
    NameLeIsPreorder();
    SortSorts(listable, NameLe);
    SortPermutes(listable, NameLe);
    var r := Listing(users, me);
    forall i, j | 0 <= i < |r| <= j < |all| ensures LexLe(NameKey(r[i]), NameKey(all[j])) {
      assert r[i] == all[i];
      assert NameLe(all[i], all[j]);
    }
  }

  /** The listing holds the first 50 listable users in name order: as many
      as there are, up to 50, ordered by name, none left out sorting before
      a listed one, and every listable user when there are at most 50. */
  lemma {:induction false} ListingIsSortedAndCapped(users: seq<UserDoc>, me: string)
    ensures var r := Listing(users, me);
            var all := SortBy(ListableUsers(users, me), NameLe);
            && |r| == (if |ListableUsers(users, me)| < ListingCap then |ListableUsers(users, me)| else ListingCap)
            && r == all[..|r|]
            && multiset(all) == multiset(ListableUsers(users, me))
            && (forall i, j :: 0 <= i < |r| <= j < |all| ==> LexLe(NameKey(r[i]), NameKey(all[j])))
            && (forall u :: u in r ==> u in users && Listable(u, me))
            && (forall i, j :: 0 <= i < j < |r| ==> LexLe(NameKey(r[i]), NameKey(r[j])))
            && (|ListableUsers(users, me)| <= ListingCap ==> multiset(r) == multiset(ListableUsers(users, me)))
  {
    var listable := ListableUsers(users, me);
    var all := SortBy(listable, NameLe);
    var r := Listing(users, me);
    ListingIsSortedPrefix(users, me);
    forall u | u in r ensures u in users && Listable(u, me) {
      assert u in multiset(all);
      assert u in multiset(listable);
    }
    forall i, j | 0 <= i < j < |r| ensures LexLe(NameKey(r[i]), NameKey(r[j])) {
      assert NameLe(all[i], all[j]);
    }
    if |listable| <= ListingCap {
      assert r == all[..|all|] == all;
    }
  }

  /** The search filter (NewChatModal.jsx:69-74): not the viewer (a user with
      no uid passes) and the query, lower-cased and untrimmed, occurs in
      the lower-cased name or e-mail. */
  predicate Matches(u: UserDoc, me: string, query: string) {
    u.uid != Some(me)
    && ((u.displayName.Some? && Contains(Lower(u.displayName.value), Lower(query)))
        || (u.email.Some? && Contains(Lower(u.email.value), Lower(query))))
  }

  function SearchResults(users: seq<UserDoc>, me: string, query: string): (r: seq<UserDoc>)
    ensures |r| <= |users|
    ensures forall u :: u in r <==> u in users && Matches(u, me, query)
  {
    if users == [] then []
    else (if Matches(users[0], me, query) then [users[0]] else []) + SearchResults(users[1..], me, query)
  }

  /** Search adds nothing: each result occurs in the collection at least as
      often as among the results. */
  lemma {:induction false} SearchAddsNothing(users: seq<UserDoc>, me: string, query: string)
    ensures forall u :: multiset(SearchResults(users, me, query))[u] <= multiset(users)[u]
  {
    if users != [] {
      SearchAddsNothing(users[1..], me, query);
      assert users == [users[0]] + users[1..];
    }
  }

  /** What picking a user does: the chat handed to `onChatSelected`, if
      any, and whether the modal closes. */
  datatype Selection = Selection(chatSelected: Option<string>, closes: bool)

  /** `handleSelectUser` (NewChatModal.jsx:84-96): `reply` is what
      `getOrCreateChat` answered. A failed lookup still closes the modal. */
  function SelectUser(signedIn: bool, hasHandler: bool, reply: Reply): (r: Selection)
    ensures !signedIn ==> r == Selection(None, false)
    ensures signedIn ==> r.closes
    ensures r.chatSelected.Some? <==> signedIn && hasHandler && reply.Found?
    ensures r.chatSelected.Some? ==> r.chatSelected.value == reply.chatId
  {
    if !signedIn then Selection(None, false)
    else Selection(if reply.Found? && hasHandler then Some(reply.chatId) else None, true)
  }

  class UserPicker {
    var searchQuery: string
    var users: seq<UserDoc>
    var loading: bool

    constructor()
      ensures searchQuery == "" && users == [] && !loading
    {
      searchQuery, users, loading := "", [], false;
    }

    /** `fetchUsers` (NewChatModal.jsx:26-52): `collection` is the user
        collection, or None when the read fails. */
    method FetchUsers(me: Option<string>, collection: Option<seq<UserDoc>>)
      modifies this
      ensures me.None? ==> unchanged(this)
      ensures me.Some? ==> !loading && searchQuery == old(searchQuery)
      ensures me.Some? && collection.Some? ==> users == Listing(collection.value, me.value)
      ensures me.Some? && collection.None? ==> users == old(users)
    {
      if me.None? {
        return;
      }
      loading := true;
      if collection.Some? {
        users := Listing(collection.value, me.value);
      }
      loading := false;
    }

    /** The open/sign-in effect (NewChatModal.jsx:17-24): closed or signed
        out, the query and the list are cleared. */
    method OnOpenChange(isOpen: bool, me: Option<string>, collection: Option<seq<UserDoc>>)
      modifies this
      ensures !(isOpen && me.Some?) ==> searchQuery == "" && users == [] && loading == old(loading)
      ensures isOpen && me.Some? && collection.Some? ==> users == Listing(collection.value, me.value)
    {
      if isOpen && me.Some? {
        FetchUsers(me, collection);
      } else {
        searchQuery := "";
        users := [];
      }
    }

    /** `handleSearch` (NewChatModal.jsx:54-82): a blank query, or no
        viewer, falls back to `fetchUsers`. */
    method Search(me: Option<string>, collection: Option<seq<UserDoc>>)
      modifies this
      ensures me.None? ==> unchanged(this)
      ensures me.Some? && collection.None? ==> users == old(users)
      ensures me.Some? && collection.Some? && IsBlank(old(searchQuery)) ==> users == Listing(collection.value, me.value)
      ensures me.Some? && collection.Some? && !IsBlank(old(searchQuery)) ==>
        users == SearchResults(collection.value, me.value, old(searchQuery))
      ensures searchQuery == old(searchQuery)
    {
      if IsBlank(searchQuery) || me.None? {
        FetchUsers(me, collection);
        return;
      }
      loading := true;
      if collection.Some? {
        users := SearchResults(collection.value, me.value, searchQuery);
      }
      loading := false;
    }
  }
}
