/** The decision rules of server/controllers/authController.js: the
    validation and duplicate-email rules of `register`, the field selection
    and preference merge of `updateProfile`, the learning-language list operations and the
    recent-achievements slice. Handlers act on a `UserModel.User`; statuses
    are returned as numbers. */
module AuthController {
  import opened Common
  import opened UserModel

  const DefaultNativeLanguage: string := "English"
  const DefaultLevel: string := "beginner"
  const RecentAchievementsShown: nat := 5

  /** A registered account, as far as `register` decides about it. */
  datatype Account = Account(email: string, name: string, nativeLanguage: string, role: string)

  /** Every email belongs to one account. */
  predicate EmailsDistinct(accounts: seq<Account>)
  {
    forall i, j :: 0 <= i < j < |accounts| ==> accounts[i].email != accounts[j].email
  }

  predicate EmailTaken(accounts: seq<Account>, email: string)
  {
    exists i :: 0 <= i < |accounts| && accounts[i].email == email
  }

  /** `nativeLanguage || 'English'`. */
  function NativeLanguageOrDefault(nativeLanguage: Option<string>): (l: string)
    ensures nativeLanguage.Some? && nativeLanguage.value != "" ==> l == nativeLanguage.value
    ensures nativeLanguage.None? || nativeLanguage.value == "" ==> l == DefaultNativeLanguage
  {
    if nativeLanguage.Some? && nativeLanguage.value != "" then nativeLanguage.value else DefaultNativeLanguage
  }

  /** What `User.create` receives once strict mode has dropped the paths the
      User schema does not declare. */
  datatype NewUser = NewUser(name: Option<string>, email: string, nativeLanguage: string)

  /** `User.create`: the schema requires `name` and matches `email`
      against its pattern, so a document without a name, or with an address
      the pattern refuses, fails validation and nothing is stored. */
  function Created(u: NewUser): (r: Option<Account>)
    ensures r.Some? <==> u.name.Some? && SchemaEmail(u.email)
    ensures r.Some? ==> r.value.email == u.email && r.value.name == u.name.value
                        && r.value.nativeLanguage == u.nativeLanguage && r.value.role == "user"
  {
    if u.name.Some? && SchemaEmail(u.email) then Some(Account(u.email, u.name.value, u.nativeLanguage, "user"))
    else None
  }

  /** The body `register` builds has no `name`: for a valid request with a
      new address the create is refused, where the same body with its name
      would be stored. */
  lemma RegisterBodyIsRefused()
    ensures Created(NewUser(None, "ana@example.com", "English")).None?
    ensures Created(NewUser(Some("Ana"), "ana@example.com", "English"))
            == Some(Account("ana@example.com", "Ana", "English", "user"))
  {
    SchemaEmailAcceptsPlainAddress();
  }

  /** The registered accounts. */
  class UserDirectory {
    var accounts: seq<Account>

    constructor ()
      ensures accounts == []
    {
      accounts := [];
    }

    /** `register` as written: 400 when the route's validators reject the
        body (`requestValid` is their verdict), 400 for an email already
        registered; otherwise the handler passes `firstName` and `lastName`,
        which the schema does not declare, and no `name`, so `User.create`
        fails and the catch replies 500 with nothing stored. `email` is the
        address as `normalizeEmail()` leaves it, so equal addresses are equal
        strings. */
    method Register(requestValid: bool, firstName: string, lastName: string, email: string,
                    nativeLanguage: Option<string>)
      returns (status: int)
      requires EmailsDistinct(accounts)
      modifies this
      ensures EmailsDistinct(accounts)
      ensures !requestValid ==> status == 400 && accounts == old(accounts)
      ensures requestValid && EmailTaken(old(accounts), email) ==> status == 400 && accounts == old(accounts)
      ensures requestValid && !EmailTaken(old(accounts), email) ==> status == 500 && accounts == old(accounts)
    {
      if !requestValid {
        return 400;
      }
      var existing := FindFirst(accounts, (a: Account) => a.email == email);
      if existing.Some? {
        return 400;
      }
      var created := Created(NewUser(None, email, NativeLanguageOrDefault(nativeLanguage)));
      assert created.None?;
      status := 500;
    }

    /** `register` as evidently intended: the body's `name`, which the route
        requires, is passed to `User.create`, and a new email gets an account
        with role user, unless the schema's email pattern refuses the address,
        when the create fails and the catch replies 500. */
    method RegisterWithName(requestValid: bool, name: string, email: string, nativeLanguage: Option<string>)
      returns (status: int)
      requires EmailsDistinct(accounts)
      modifies this
      ensures EmailsDistinct(accounts)
      ensures !requestValid ==> status == 400 && accounts == old(accounts)
      ensures requestValid && EmailTaken(old(accounts), email) ==> status == 400 && accounts == old(accounts)
      ensures requestValid && !EmailTaken(old(accounts), email) && !SchemaEmail(email) ==>
        status == 500 && accounts == old(accounts)
      ensures requestValid && !EmailTaken(old(accounts), email) && SchemaEmail(email) ==>
        status == 201 && accounts == old(accounts) + [Account(email, name, NativeLanguageOrDefault(nativeLanguage), "user")]
    {
      if !requestValid {
        return 400;
      }
      var existing := FindFirst(accounts, (a: Account) => a.email == email);
      if existing.Some? {
        return 400;
      }
      var created := Created(NewUser(Some(name), email, NativeLanguageOrDefault(nativeLanguage)));
      if created.None? {
        return 500;
      }
      accounts := accounts + [created.value];
      status := 201;
    }
  }

  /** The fields of an `updateProfile` body the handler reads. */
  datatype ProfileUpdate = ProfileUpdate(
    firstName: Option<string>,
    lastName: Option<string>,
    nativeLanguage: Option<string>,
    preferences: Option<map<string, string>>)

  /** A string field is copied only when given and not empty (truthy). */
  function Chosen(field: Option<string>, current: string): (r: string)
    ensures field.Some? && field.value != "" ==> r == field.value
    ensures field.None? || field.value == "" ==> r == current
  {
    if field.Some? && field.value != "" then field.value else current
  }

  /** Merging the same preferences twice (`{ ...current, ...given }`) is
      merging them once. */
  lemma MergeIsIdempotent(current: JsObject, given: JsObject)
    ensures Spread(Spread(current, given), given) == Spread(current, given)
  {
  }

  /** `updateProfile`: 400 when the route's validators reject the body;
      otherwise the native language and the merged preferences are written.
      The handler also copies `firstName` and `lastName` into the update, but
      the User schema declares neither, so strict mode drops them and the
      name is never changed. */
  method UpdateProfile(user: User, requestValid: bool, update: ProfileUpdate) returns (status: int)
    modifies user`nativeLanguage, user`preferences
    ensures user.name == old(user.name)
    ensures !requestValid ==>
      status == 400 && user.nativeLanguage == old(user.nativeLanguage) && user.preferences == old(user.preferences)
    ensures requestValid ==> status == 200
    ensures requestValid ==> user.nativeLanguage == Chosen(update.nativeLanguage, old(user.nativeLanguage))
    ensures requestValid && update.preferences.None? ==> user.preferences == old(user.preferences)
    ensures requestValid && update.preferences.Some? ==>
      user.preferences == Spread(old(user.preferences), update.preferences.value)
  {
    if !requestValid {
      return 400;
    }
    if update.nativeLanguage.Some? && update.nativeLanguage.value != "" {
      user.nativeLanguage := update.nativeLanguage.value;
    }
    if update.preferences.Some? {
      user.preferences := user.preferences + update.preferences.value;
    }
    status := 200;
  }

  /** No language is learnt twice. */
  predicate LanguagesDistinct(ls: seq<LearningLanguage>)
  {
    forall i, j :: 0 <= i < j < |ls| ==> ls[i].language != ls[j].language
  }

  /** `learningLanguages.find(lang => lang.language === language)`. */
  function LanguageIndex(ls: seq<LearningLanguage>, language: string): (k: Option<nat>)
    ensures k.Some? ==> k.value < |ls| && ls[k.value].language == language
    ensures k.None? <==> forall i :: 0 <= i < |ls| ==> ls[i].language != language
  {
    FindFirst(ls, (l: LearningLanguage) => l.language == language)
  }

  /** The list after `removeLearningLanguage`. */
  function WithoutLanguage(ls: seq<LearningLanguage>, language: string): (r: seq<LearningLanguage>)
    ensures forall i :: 0 <= i < |r| ==> r[i].language != language
    ensures forall x :: x in r <==> x in ls && x.language != language
    ensures IsSubsequence(r, ls)
    ensures LanguageIndex(ls, language).None? ==> r == ls
  {
    FilterIsSubsequence(ls, (l: LearningLanguage) => l.language != language);
    Filter(ls, (l: LearningLanguage) => l.language != language)
  }

  /** Removing keeps the list free of repeats. */
  lemma RemovalKeepsLanguagesDistinct(ls: seq<LearningLanguage>, language: string)
    requires LanguagesDistinct(ls)
    ensures LanguagesDistinct(WithoutLanguage(ls, language))
  {
    SubsequenceKeepsDistinct(WithoutLanguage(ls, language), ls);
  }

  lemma {:induction false} SubsequenceKeepsDistinct(r: seq<LearningLanguage>, s: seq<LearningLanguage>)
    requires IsSubsequence(r, s) && LanguagesDistinct(s)
    ensures LanguagesDistinct(r)
    decreases |s|
  {
    if r != [] && s != [] {
      if r[0] == s[0] {
        assert IsSubsequence(r[1..], s[1..]);
        assert LanguagesDistinct(s[1..]) by {
          forall i, j | 0 <= i < j < |s[1..]| ensures s[1..][i].language != s[1..][j].language {
            assert s[1..][i] == s[i + 1] && s[1..][j] == s[j + 1];
          }
        }
        SubsequenceKeepsDistinct(r[1..], s[1..]);
        SubsequenceMembers(r[1..], s[1..]);
        forall j | 0 < j < |r| ensures r[0].language != r[j].language {
          assert r[j] == r[1..][j - 1];
          assert r[j] in r[1..];
          var k :| 0 <= k < |s[1..]| && s[1..][k] == r[j];
          assert s[k + 1] == r[j];
        }
        forall i, j | 0 <= i < j < |r| ensures r[i].language != r[j].language {
          if i > 0 {
            assert r[i] == r[1..][i - 1] && r[j] == r[1..][j - 1];
          }
        }
      } else {
        assert IsSubsequence(r, s[1..]);
        assert LanguagesDistinct(s[1..]) by {
          forall i, j | 0 <= i < j < |s[1..]| ensures s[1..][i].language != s[1..][j].language {
            assert s[1..][i] == s[i + 1] && s[1..][j] == s[j + 1];
          }
        }
        SubsequenceKeepsDistinct(r, s[1..]);
      }
    }
  }

  /** What the route's validators accept for `addLearningLanguage`: one of
      the nine languages, and a level from the three when one is given. */
  predicate AddLanguageRequestValid(language: string, level: Option<string>)
  {
    language in SupportedLanguages && (level.Some? ==> level.value in LevelNames)
  }

  /** `addLearningLanguage`: 400 when the validators reject the body or the
      language is already listed, otherwise one entry is appended. */
  method AddLearningLanguage(user: User, language: string, level: Option<string>, now: int) returns (status: int)
    requires LanguagesDistinct(user.learningLanguages)
    modifies user`learningLanguages
    ensures LanguagesDistinct(user.learningLanguages)
    ensures !AddLanguageRequestValid(language, level) ==>
      status == 400 && user.learningLanguages == old(user.learningLanguages)
    ensures AddLanguageRequestValid(language, level) && LanguageIndex(old(user.learningLanguages), language).Some? ==>
      status == 400 && user.learningLanguages == old(user.learningLanguages)
    ensures AddLanguageRequestValid(language, level) && LanguageIndex(old(user.learningLanguages), language).None? ==>
      status == 200 &&
      user.learningLanguages == old(user.learningLanguages)
        + [LearningLanguage(language, if level.Some? then level.value else DefaultLevel, now)]
    ensures forall i :: 0 <= i < |user.learningLanguages| && i >= |old(user.learningLanguages)| ==>
      user.learningLanguages[i].language in SupportedLanguages && user.learningLanguages[i].level in LevelNames
  {
    if !(language in SupportedLanguages && (level.Some? ==> level.value in LevelNames)) {
      return 400;
    }
    var existing := LanguageIndex(user.learningLanguages, language);
    if existing.Some? {
      return 400;
    }
    var chosen := if level.Some? then level.value else DefaultLevel;
    user.learningLanguages := user.learningLanguages + [LearningLanguage(language, chosen, now)];
    status := 200;
  }

  /** `removeLearningLanguage`: every entry of the language goes. */
  method RemoveLearningLanguage(user: User, language: string)
    modifies user`learningLanguages
    ensures user.learningLanguages == WithoutLanguage(old(user.learningLanguages), language)
  {
    user.learningLanguages := Filter(user.learningLanguages, (l: LearningLanguage) => l.language != language);
  }

  /** The list after setting the level of the language's entry, or None when
      the language is not listed. */
  function WithLevel(ls: seq<LearningLanguage>, language: string, level: string): (r: Option<seq<LearningLanguage>>)
    ensures r.None? <==> LanguageIndex(ls, language).None?
    ensures r.Some? ==> |r.value| == |ls|
    ensures r.Some? ==> forall i :: 0 <= i < |ls| ==>
      r.value[i] == (if i == LanguageIndex(ls, language).value then ls[i].(level := level) else ls[i])
    ensures r.Some? && LanguagesDistinct(ls) ==> LanguagesDistinct(r.value)
  {
    match LanguageIndex(ls, language)
    case None => None
    case Some(k) => Some(ls[k := ls[k].(level := level)])
  }

  /** With distinct languages, the entry changed is the one of that language
      and every other entry is untouched. */
  lemma OnlyThatLanguageChanges(ls: seq<LearningLanguage>, language: string, level: string)
    requires LanguagesDistinct(ls) && LanguageIndex(ls, language).Some?
    ensures forall i :: 0 <= i < |ls| ==>
      WithLevel(ls, language, level).value[i] == (if ls[i].language == language then ls[i].(level := level) else ls[i])
  {
  }

  /** `updateLearningLanguageLevel`: 400 when the level is not one of the
      three the route accepts, 404 when the language is not listed. */
  method UpdateLearningLanguageLevel(user: User, language: string, level: string) returns (status: int)
    modifies user`learningLanguages
    ensures level !in LevelNames ==> status == 400 && user.learningLanguages == old(user.learningLanguages)
    ensures level in LevelNames && WithLevel(old(user.learningLanguages), language, level).None? ==>
      status == 404 && user.learningLanguages == old(user.learningLanguages)
    ensures level in LevelNames && WithLevel(old(user.learningLanguages), language, level).Some? ==>
      status == 200 && user.learningLanguages == WithLevel(old(user.learningLanguages), language, level).value
  {
    if level !in LevelNames {
      return 400;
    }
    var found := LanguageIndex(user.learningLanguages, language);
    if found.None? {
      return 404;
    }
    var k := found.value;
    user.learningLanguages := user.learningLanguages[k := user.learningLanguages[k].(level := level)];
    status := 200;
  }

  /** The comparator `new Date(b.unlockedAt) - new Date(a.unlockedAt)`: newer
      first. */
  predicate Newer(a: Achievement, b: Achievement)
  {
    a.unlockedAt > b.unlockedAt
  }

  lemma NewerIsStrictOrder()
    ensures StrictOrder(Newer)
  {
  }

  /** The achievements reply. */
  datatype AchievementsReply = AchievementsReply(achievements: seq<Achievement>, total: nat, recent: seq<Achievement>)

  /** `getAchievements`: the user's achievements are sorted newest first in
      place; the reply carries them all and the first five. */
  method GetAchievements(user: User) returns (reply: AchievementsReply)
    modifies user`achievements
    ensures multiset(user.achievements) == multiset(old(user.achievements))
    ensures SortedBy(user.achievements, Newer)
    ensures reply.achievements == user.achievements && reply.total == |user.achievements|
    ensures reply.recent == user.achievements[..Min(RecentAchievementsShown, |user.achievements|)]
    ensures |reply.recent| <= RecentAchievementsShown
  {
    NewerIsStrictOrder();
    SortByIsSorted(user.achievements, Newer);
    user.achievements := SortBy(user.achievements, Newer);
    var n := Min(RecentAchievementsShown, |user.achievements|);
    reply := AchievementsReply(user.achievements, |user.achievements|, user.achievements[..n]);
  }

  /** The recent achievements are the newest ones: none left out is newer
      than one shown. */
  lemma RecentAreNewest(s: seq<Achievement>, i: nat, j: nat)
    requires SortedBy(s, Newer)
    requires i < Min(RecentAchievementsShown, |s|) <= j < |s|
    ensures s[i].unlockedAt >= s[j].unlockedAt
  {
  }
}
