/** The record schemas of types/index.ts. Every entity has a base schema used
    for creation, an update schema that makes every base field optional, and a
    response schema that adds the generated id and two timestamps. Each schema
    is a predicate over a record; numbers are JavaScript numbers (`real`), so
    the `.int()` checks are real checks. */
module Schemas {
  import opened Wrappers
  import opened Js
  import Text

  /** The format checks zod takes from libraries: email syntax, URL parsing
      (the WHATWG URL Standard) and ISO-8601 date-times. */
  datatype Checks = Checks(
    isEmail: string -> bool,
    isUrl: string -> bool,
    isDateTime: string -> bool)

  /** `z.string().min(lo).max(hi)`: both bounds inclusive. */
  predicate LengthIn(s: string, lo: nat, hi: nat) {
    lo <= |s| <= hi
  }

  /** `z.number().int()`. */
  predicate IsInteger(x: real) {
    x == x.Floor as real
  }

  /** `z.number().int().positive()`. */
  predicate IsPositiveInt(x: real) {
    IsInteger(x) && x > 0.0
  }

  /** A field declared `.nullable().optional()`: missing, `null`, or a value. */
  datatype Nullable<+T> = Omitted | NullValue | Given(value: T)

  function PatchOption<T>(current: T, update: Option<T>): T {
    if update.Some? then update.value else current
  }

  function PatchOptional<T>(current: Option<T>, update: Option<T>): Option<T> {
    if update.Some? then update else current
  }

  function PatchNullable<T>(current: Nullable<T>, update: Nullable<T>): Nullable<T> {
    if update.Omitted? then current else update
  }

  /** The two generated timestamps of every response record. */
  predicate Stamped(c: Checks, createdAt: string, updatedAt: string) {
    c.isDateTime(createdAt) && c.isDateTime(updatedAt)
  }

  // ---------------------------------------------------------------- FuelStation

  datatype FuelStationCreate = FuelStationCreate(
    name: string, municipality: string, address: string,
    gpsLatitude: real, gpsLongitude: real)

  predicate ValidFuelStation(s: FuelStationCreate) {
    && LengthIn(s.name, 2, 255)
    && LengthIn(s.municipality, 2, 255)
    && LengthIn(s.address, 2, 255)
    && -90.0 <= s.gpsLatitude <= 90.0
    && -180.0 <= s.gpsLongitude <= 180.0
  }

  datatype FuelStationUpdate = FuelStationUpdate(
    name: Option<string>, municipality: Option<string>, address: Option<string>,
    gpsLatitude: Option<real>, gpsLongitude: Option<real>)

  predicate ValidFuelStationUpdate(u: FuelStationUpdate) {
    && (u.name.None? || LengthIn(u.name.value, 2, 255))
    && (u.municipality.None? || LengthIn(u.municipality.value, 2, 255))
    && (u.address.None? || LengthIn(u.address.value, 2, 255))
    && (u.gpsLatitude.None? || -90.0 <= u.gpsLatitude.value <= 90.0)
    && (u.gpsLongitude.None? || -180.0 <= u.gpsLongitude.value <= 180.0)
  }

  const EmptyFuelStationUpdate := FuelStationUpdate(None, None, None, None, None)

  function FuelStationAsUpdate(s: FuelStationCreate): FuelStationUpdate {
    FuelStationUpdate(Some(s.name), Some(s.municipality), Some(s.address),
                      Some(s.gpsLatitude), Some(s.gpsLongitude))
  }

  /** The record that results from applying the update's present fields. */
  function FuelStationPatch(s: FuelStationCreate, u: FuelStationUpdate): FuelStationCreate {
    FuelStationCreate(PatchOption(s.name, u.name), PatchOption(s.municipality, u.municipality),
                      PatchOption(s.address, u.address), PatchOption(s.gpsLatitude, u.gpsLatitude),
                      PatchOption(s.gpsLongitude, u.gpsLongitude))
  }

  datatype FuelStation = FuelStation(
    base: FuelStationCreate, idFuelStation: real, createdAt: string, updatedAt: string)

  predicate ValidFuelStationResponse(r: FuelStation, c: Checks) {
    ValidFuelStation(r.base) && IsPositiveInt(r.idFuelStation) && Stamped(c, r.createdAt, r.updatedAt)
  }

  /** The update schema is the create schema with every field optional: the
      empty update is valid, a full record is a valid update exactly when it is
      a valid create record, and an update is valid exactly when patching it
      onto a valid record keeps that record valid. */
  lemma FuelStationUpdateIsPartial(s: FuelStationCreate, u: FuelStationUpdate)
    ensures ValidFuelStationUpdate(EmptyFuelStationUpdate)
    ensures ValidFuelStation(s) <==> ValidFuelStationUpdate(FuelStationAsUpdate(s))
    ensures ValidFuelStation(s) ==> (ValidFuelStationUpdate(u) <==> ValidFuelStation(FuelStationPatch(s, u)))
  {
  }

  /** The response schema is the base plus a positive integer id and two
      date-time stamps, in both directions. The first clause unfolds the
      definition of ValidFuelStationResponse above; the second spells out what
      a positive integer id is. */
  lemma FuelStationResponseExtendsBase(r: FuelStation, c: Checks)
    ensures ValidFuelStationResponse(r, c) <==>
              ValidFuelStation(r.base) && IsPositiveInt(r.idFuelStation) && Stamped(c, r.createdAt, r.updatedAt)
    ensures ValidFuelStationResponse(r, c) ==> r.idFuelStation >= 1.0 && r.idFuelStation.Floor as real == r.idFuelStation
  {
  }

  /** The bounds are inclusive: two and 255 characters and ±90/±180 degrees
      pass; one step beyond any of the ten bounds does not. */
  lemma FuelStationBoundaries()
    ensures ValidFuelStation(FuelStationCreate("ab", "cd", "ef", 90.0, -180.0))
    ensures ValidFuelStation(FuelStationCreate("ab", "cd", "ef", -90.0, 180.0))
    ensures ValidFuelStation(FuelStationCreate(seq(255, _ => 'a'), seq(255, _ => 'b'), seq(255, _ => 'c'), 0.0, 0.0))
    ensures !ValidFuelStation(FuelStationCreate("a", "cd", "ef", 0.0, 0.0))
    ensures !ValidFuelStation(FuelStationCreate("ab", "c", "ef", 0.0, 0.0))
    ensures !ValidFuelStation(FuelStationCreate("ab", "cd", "e", 0.0, 0.0))
    ensures !ValidFuelStation(FuelStationCreate(seq(256, _ => 'a'), "cd", "ef", 0.0, 0.0))
    ensures !ValidFuelStation(FuelStationCreate("ab", seq(256, _ => 'b'), "ef", 0.0, 0.0))
    ensures !ValidFuelStation(FuelStationCreate("ab", "cd", seq(256, _ => 'c'), 0.0, 0.0))
    ensures !ValidFuelStation(FuelStationCreate("ab", "cd", "ef", 90.0001, 0.0))
    ensures !ValidFuelStation(FuelStationCreate("ab", "cd", "ef", -90.0001, 0.0))
    ensures !ValidFuelStation(FuelStationCreate("ab", "cd", "ef", 0.0, 180.0001))
    ensures !ValidFuelStation(FuelStationCreate("ab", "cd", "ef", 0.0, -180.0001))
  {
  }

  // ------------------------------------------------------------------- FuelType

  datatype FuelTypeCreate = FuelTypeCreate(fuelName: string, description: string)

  predicate ValidFuelType(t: FuelTypeCreate) {
    LengthIn(t.fuelName, 2, 50) && LengthIn(t.description, 2, 255)
  }

  datatype FuelTypeUpdate = FuelTypeUpdate(fuelName: Option<string>, description: Option<string>)

  predicate ValidFuelTypeUpdate(u: FuelTypeUpdate) {
    && (u.fuelName.None? || LengthIn(u.fuelName.value, 2, 50))
    && (u.description.None? || LengthIn(u.description.value, 2, 255))
  }

  const EmptyFuelTypeUpdate := FuelTypeUpdate(None, None)

  function FuelTypeAsUpdate(t: FuelTypeCreate): FuelTypeUpdate {
    FuelTypeUpdate(Some(t.fuelName), Some(t.description))
  }

  function FuelTypePatch(t: FuelTypeCreate, u: FuelTypeUpdate): FuelTypeCreate {
    FuelTypeCreate(PatchOption(t.fuelName, u.fuelName), PatchOption(t.description, u.description))
  }

  datatype FuelType = FuelType(base: FuelTypeCreate, idFuelType: real, createdAt: string, updatedAt: string)

  predicate ValidFuelTypeResponse(r: FuelType, c: Checks) {
    ValidFuelType(r.base) && IsPositiveInt(r.idFuelType) && Stamped(c, r.createdAt, r.updatedAt)
  }

  lemma FuelTypeUpdateIsPartial(t: FuelTypeCreate, u: FuelTypeUpdate)
    ensures ValidFuelTypeUpdate(EmptyFuelTypeUpdate)
    ensures ValidFuelType(t) <==> ValidFuelTypeUpdate(FuelTypeAsUpdate(t))
    ensures ValidFuelType(t) ==> (ValidFuelTypeUpdate(u) <==> ValidFuelType(FuelTypePatch(t, u)))
  {
  }

  // ----------------------------------------------------------- FuelAvailability

  datatype FuelAvailabilityCreate = FuelAvailabilityCreate(
    availableQuantity: real, idFuelStation: real, idFuelType: real)

  predicate ValidFuelAvailability(a: FuelAvailabilityCreate) {
    a.availableQuantity >= 0.0 && IsPositiveInt(a.idFuelStation) && IsPositiveInt(a.idFuelType)
  }

  datatype FuelAvailabilityUpdate = FuelAvailabilityUpdate(
    availableQuantity: Option<real>, idFuelStation: Option<real>, idFuelType: Option<real>)

  predicate ValidFuelAvailabilityUpdate(u: FuelAvailabilityUpdate) {
    && (u.availableQuantity.None? || u.availableQuantity.value >= 0.0)
    && (u.idFuelStation.None? || IsPositiveInt(u.idFuelStation.value))
    && (u.idFuelType.None? || IsPositiveInt(u.idFuelType.value))
  }

  const EmptyFuelAvailabilityUpdate := FuelAvailabilityUpdate(None, None, None)

  function FuelAvailabilityAsUpdate(a: FuelAvailabilityCreate): FuelAvailabilityUpdate {
    FuelAvailabilityUpdate(Some(a.availableQuantity), Some(a.idFuelStation), Some(a.idFuelType))
  }

  function FuelAvailabilityPatch(a: FuelAvailabilityCreate, u: FuelAvailabilityUpdate): FuelAvailabilityCreate {
    FuelAvailabilityCreate(PatchOption(a.availableQuantity, u.availableQuantity),
                           PatchOption(a.idFuelStation, u.idFuelStation),
                           PatchOption(a.idFuelType, u.idFuelType))
  }

  datatype FuelAvailability = FuelAvailability(
    base: FuelAvailabilityCreate, idFuelAvailability: real, createdAt: string, updatedAt: string)

  predicate ValidFuelAvailabilityResponse(r: FuelAvailability, c: Checks) {
    ValidFuelAvailability(r.base) && IsPositiveInt(r.idFuelAvailability) && Stamped(c, r.createdAt, r.updatedAt)
  }

  /** A valid availability has a non-negative quantity and refers to a station
      and a fuel type by ids that are whole numbers of at least 1. */
  lemma FuelAvailabilityBounds(a: FuelAvailabilityCreate)
    requires ValidFuelAvailability(a)
    ensures a.availableQuantity >= 0.0
    ensures a.idFuelStation >= 1.0 && a.idFuelType >= 1.0
    ensures a.idFuelStation.Floor as real == a.idFuelStation
    ensures a.idFuelType.Floor as real == a.idFuelType
  {
  }

  lemma FuelAvailabilityUpdateIsPartial(a: FuelAvailabilityCreate, u: FuelAvailabilityUpdate)
    ensures ValidFuelAvailabilityUpdate(EmptyFuelAvailabilityUpdate)
    ensures ValidFuelAvailability(a) <==> ValidFuelAvailabilityUpdate(FuelAvailabilityAsUpdate(a))
    ensures ValidFuelAvailability(a) ==>
              (ValidFuelAvailabilityUpdate(u) <==> ValidFuelAvailability(FuelAvailabilityPatch(a, u)))
  {
  }

  // ----------------------------------------------------------------------- Role

  datatype RoleCreate = RoleCreate(roleName: string, description: Nullable<string>)

  predicate ValidRole(r: RoleCreate) {
    LengthIn(r.roleName, 2, 50) && (!r.description.Given? || |r.description.value| <= 255)
  }

  datatype RoleUpdate = RoleUpdate(roleName: Option<string>, description: Nullable<string>)

  predicate ValidRoleUpdate(u: RoleUpdate) {
    && (u.roleName.None? || LengthIn(u.roleName.value, 2, 50))
    && (!u.description.Given? || |u.description.value| <= 255)
  }

  const EmptyRoleUpdate := RoleUpdate(None, Omitted)

  function RoleAsUpdate(r: RoleCreate): RoleUpdate {
    RoleUpdate(Some(r.roleName), r.description)
  }

  function RolePatch(r: RoleCreate, u: RoleUpdate): RoleCreate {
    RoleCreate(PatchOption(r.roleName, u.roleName), PatchNullable(r.description, u.description))
  }

  datatype Role = Role(base: RoleCreate, idRole: real, createdAt: string, updatedAt: string)

  predicate ValidRoleResponse(r: Role, c: Checks) {
    ValidRole(r.base) && IsPositiveInt(r.idRole) && Stamped(c, r.createdAt, r.updatedAt)
  }

  lemma RoleUpdateIsPartial(r: RoleCreate, u: RoleUpdate)
    ensures ValidRoleUpdate(EmptyRoleUpdate)
    ensures ValidRole(r) <==> ValidRoleUpdate(RoleAsUpdate(r))
    ensures ValidRole(r) ==> (ValidRoleUpdate(u) <==> ValidRole(RolePatch(r, u)))
  {
  }

  // ----------------------------------------------------------------------- User

  datatype UserCreate = UserCreate(
    name: string, lastName: Option<string>, email: string, password: string,
    phone: Nullable<string>, idRole: Option<real>, idFuelStation: Nullable<real>)

  predicate ValidUser(u: UserCreate, c: Checks) {
    && LengthIn(u.name, 2, 255)
    && (u.lastName.None? || LengthIn(u.lastName.value, 2, 255))
    && c.isEmail(u.email) && |u.email| <= 255
    && LengthIn(u.password, 6, 255)
    && (!u.phone.Given? || |u.phone.value| <= 20)
    && (u.idRole.None? || IsPositiveInt(u.idRole.value))
    && (!u.idFuelStation.Given? || IsPositiveInt(u.idFuelStation.value))
  }

  datatype UserUpdate = UserUpdate(
    name: Option<string>, lastName: Option<string>, email: Option<string>, password: Option<string>,
    phone: Nullable<string>, idRole: Option<real>, idFuelStation: Nullable<real>)

  predicate ValidUserUpdate(u: UserUpdate, c: Checks) {
    && (u.name.None? || LengthIn(u.name.value, 2, 255))
    && (u.lastName.None? || LengthIn(u.lastName.value, 2, 255))
    && (u.email.None? || (c.isEmail(u.email.value) && |u.email.value| <= 255))
    && (u.password.None? || LengthIn(u.password.value, 6, 255))
    && (!u.phone.Given? || |u.phone.value| <= 20)
    && (u.idRole.None? || IsPositiveInt(u.idRole.value))
    && (!u.idFuelStation.Given? || IsPositiveInt(u.idFuelStation.value))
  }

  const EmptyUserUpdate := UserUpdate(None, None, None, None, Omitted, None, Omitted)

  function UserAsUpdate(u: UserCreate): UserUpdate {
    UserUpdate(Some(u.name), u.lastName, Some(u.email), Some(u.password), u.phone, u.idRole, u.idFuelStation)
  }

  function UserPatch(u: UserCreate, d: UserUpdate): UserCreate {
    UserCreate(PatchOption(u.name, d.name), PatchOptional(u.lastName, d.lastName),
               PatchOption(u.email, d.email), PatchOption(u.password, d.password),
               PatchNullable(u.phone, d.phone), PatchOptional(u.idRole, d.idRole),
               PatchNullable(u.idFuelStation, d.idFuelStation))
  }

  datatype User = User(base: UserCreate, idUser: real, createdAt: string, updatedAt: string)

  predicate ValidUserResponse(r: User, c: Checks) {
    ValidUser(r.base, c) && IsPositiveInt(r.idUser) && Stamped(c, r.createdAt, r.updatedAt)
  }

  /** What a valid user record guarantees, field by field. */
  lemma ValidUserFields(u: UserCreate, c: Checks)
    requires ValidUser(u, c)
    ensures 2 <= |u.name| <= 255 && 6 <= |u.password| <= 255 && |u.email| <= 255
    ensures u.lastName.Some? ==> 2 <= |u.lastName.value| <= 255
    ensures u.phone.Given? ==> |u.phone.value| <= 20
    ensures u.idRole.Some? ==> u.idRole.value >= 1.0
    ensures u.idFuelStation.Given? ==> u.idFuelStation.value >= 1.0
  {
  }

  /** Every optional field may be left out, or (phone, station) set to null. */
  lemma MinimalUserIsValid(name: string, email: string, password: string, c: Checks)
    requires 2 <= |name| <= 255 && 6 <= |password| <= 255 && |email| <= 255 && c.isEmail(email)
    ensures ValidUser(UserCreate(name, None, email, password, Omitted, None, Omitted), c)
    ensures ValidUser(UserCreate(name, None, email, password, NullValue, None, NullValue), c)
  {
  }

  lemma UserUpdateIsPartial(u: UserCreate, d: UserUpdate, c: Checks)
    ensures ValidUserUpdate(EmptyUserUpdate, c)
    ensures ValidUser(u, c) <==> ValidUserUpdate(UserAsUpdate(u), c)
    ensures ValidUser(u, c) ==> (ValidUserUpdate(d, c) <==> ValidUser(UserPatch(u, d), c))
  {
  }

  // ---------------------------------------------------- UserStationNotification

  datatype NotificationCreate = NotificationCreate(subscribed: bool, idUser: real, idFuelStation: real)

  predicate ValidNotification(n: NotificationCreate) {
    IsPositiveInt(n.idUser) && IsPositiveInt(n.idFuelStation)
  }

  datatype NotificationUpdate = NotificationUpdate(
    subscribed: Option<bool>, idUser: Option<real>, idFuelStation: Option<real>)

  predicate ValidNotificationUpdate(u: NotificationUpdate) {
    (u.idUser.None? || IsPositiveInt(u.idUser.value))
    && (u.idFuelStation.None? || IsPositiveInt(u.idFuelStation.value))
  }

  const EmptyNotificationUpdate := NotificationUpdate(None, None, None)

  function NotificationAsUpdate(n: NotificationCreate): NotificationUpdate {
    NotificationUpdate(Some(n.subscribed), Some(n.idUser), Some(n.idFuelStation))
  }

  function NotificationPatch(n: NotificationCreate, u: NotificationUpdate): NotificationCreate {
    NotificationCreate(PatchOption(n.subscribed, u.subscribed), PatchOption(n.idUser, u.idUser),
                       PatchOption(n.idFuelStation, u.idFuelStation))
  }

  datatype Notification = Notification(
    base: NotificationCreate, idUserStationNotification: real, createdAt: string, updatedAt: string)

  predicate ValidNotificationResponse(r: Notification, c: Checks) {
    ValidNotification(r.base) && IsPositiveInt(r.idUserStationNotification) && Stamped(c, r.createdAt, r.updatedAt)
  }

  lemma NotificationUpdateIsPartial(n: NotificationCreate, u: NotificationUpdate)
    ensures ValidNotificationUpdate(EmptyNotificationUpdate)
    ensures ValidNotification(n) <==> ValidNotificationUpdate(NotificationAsUpdate(n))
    ensures ValidNotification(n) ==> (ValidNotificationUpdate(u) <==> ValidNotification(NotificationPatch(n, u)))
  {
  }

  // --------------------------------------------------------------- StationImage

  datatype StationImageCreate = StationImageCreate(
    imageUrl: string, description: Nullable<string>, idFuelStation: real)

  predicate ValidStationImage(i: StationImageCreate, c: Checks) {
    && c.isUrl(i.imageUrl) && |i.imageUrl| <= 255
    && (!i.description.Given? || |i.description.value| <= 255)
    && IsPositiveInt(i.idFuelStation)
  }

  datatype StationImageUpdate = StationImageUpdate(
    imageUrl: Option<string>, description: Nullable<string>, idFuelStation: Option<real>)

  predicate ValidStationImageUpdate(u: StationImageUpdate, c: Checks) {
    && (u.imageUrl.None? || (c.isUrl(u.imageUrl.value) && |u.imageUrl.value| <= 255))
    && (!u.description.Given? || |u.description.value| <= 255)
    && (u.idFuelStation.None? || IsPositiveInt(u.idFuelStation.value))
  }

  const EmptyStationImageUpdate := StationImageUpdate(None, Omitted, None)

  function StationImageAsUpdate(i: StationImageCreate): StationImageUpdate {
    StationImageUpdate(Some(i.imageUrl), i.description, Some(i.idFuelStation))
  }

  function StationImagePatch(i: StationImageCreate, u: StationImageUpdate): StationImageCreate {
    StationImageCreate(PatchOption(i.imageUrl, u.imageUrl), PatchNullable(i.description, u.description),
                       PatchOption(i.idFuelStation, u.idFuelStation))
  }

  datatype StationImage = StationImage(
    base: StationImageCreate, idStationImage: real, createdAt: string, updatedAt: string)

  predicate ValidStationImageResponse(r: StationImage, c: Checks) {
    ValidStationImage(r.base, c) && IsPositiveInt(r.idStationImage) && Stamped(c, r.createdAt, r.updatedAt)
  }

  lemma StationImageUpdateIsPartial(i: StationImageCreate, u: StationImageUpdate, c: Checks)
    ensures ValidStationImageUpdate(EmptyStationImageUpdate, c)
    ensures ValidStationImage(i, c) <==> ValidStationImageUpdate(StationImageAsUpdate(i), c)
    ensures ValidStationImage(i, c) ==>
              (ValidStationImageUpdate(u, c) <==> ValidStationImage(StationImagePatch(i, u), c))
  {
  }

  // ---------------------------------------------------------------------- Login

  datatype Login = Login(email: string, password: string)

  const EmailFormatMessage := "El correo electrónico no tiene un formato válido"
  const PasswordLengthMessage := "La contraseña debe tener al menos 6 caracteres"
  const PasswordBlankMessage := "La contraseña no puede contener solo espacios"

  /** zod's default message for a failed `.max(n)` on a string. */
  function MaxLengthMessage(n: nat): string {
    "String must contain at most " + Text.DecimalText(n) + " character(s)"
  }

  /** The issues `loginSchema` reports, in field order and, within a field, in
      the order its checks are declared. */
  function LoginIssues(raw: Login, c: Checks): seq<string> {
    (if c.isEmail(raw.email) then [] else [EmailFormatMessage])
    + (if |raw.email| <= 255 then [] else [MaxLengthMessage(255)])
    + (if |raw.password| >= 6 then [] else [PasswordLengthMessage])
    + (if Text.HasNonWhitespace(raw.password) then [] else [PasswordBlankMessage])
  }

  /** The email transform: lower-case, then trim. */
  function NormalizeEmail(email: string): string {
    Text.Trim(Text.ToLower(email))
  }

  /** `loginSchema.parse`: every check runs on the raw input, and only an input
      that passes them all is transformed. */
  function ParseLogin(raw: Login, c: Checks): (r: Result<Login, seq<string>>)
    ensures r.Success? <==>
              c.isEmail(raw.email) && |raw.email| <= 255
              && |raw.password| >= 6 && Text.HasNonWhitespace(raw.password)
    ensures r.Success? ==> r.value == Login(NormalizeEmail(raw.email), Text.Trim(raw.password))
    ensures r.Failure? ==> r.error != [] && r.error == LoginIssues(raw, c)
  {
    var issues := LoginIssues(raw, c);
    if issues == [] then Success(Login(NormalizeEmail(raw.email), Text.Trim(raw.password)))
    else Failure(issues)
  }

  /** A normalised email is left unchanged by normalising it again. */
  lemma NormalizeEmailIdempotent(email: string)
    ensures NormalizeEmail(NormalizeEmail(email)) == NormalizeEmail(email)
  {
    var x := Text.ToLower(email);
    Text.TrimLowerCommute(Text.Trim(x));
    Text.TrimIdempotent(x);
    Text.TrimLowerCommute(x);
    Text.ToLowerIdempotent(email);
  }

  /** An accepted password is never empty after trimming... */
  lemma AcceptedPasswordNotEmpty(raw: Login, c: Checks)
    requires ParseLogin(raw, c).Success?
    ensures ParseLogin(raw, c).value.password != []
  {
    Text.TrimEmptyIffBlank(raw.password);
  }

  /** ...but it may be shorter than six characters, because the length check
      runs before the trim. */
  lemma AcceptedPasswordMayBeShort(email: string, c: Checks)
    requires c.isEmail(email) && |email| <= 255
    ensures ParseLogin(Login(email, "     a"), c) == Success(Login(NormalizeEmail(email), "a"))
  {
    var p := "     a";
    assert !Text.IsWhitespace(p[5]);
  }

  // ---------------------------------------------------------------- SessionUser

  datatype SessionUser = SessionUser(
    id: real, email: string, name: Option<string>, lastName: Option<string>, role: string)

  /** A field zod's `z.string().optional()` accepts: missing, undefined or a string. */
  predicate OptionalString(fields: map<string, Value>, key: string) {
    key !in fields || fields[key].Undefined? || fields[key].Str?
  }

  function OptionalStringValue(fields: map<string, Value>, key: string): Option<string> {
    if key in fields && fields[key].Str? then Some(fields[key].s) else None
  }

  /** `sessionUserSchema.parse`: an object with a numeric id, an email, a role
      string, and optional string name and lastName; other keys are dropped. */
  function ParseSessionUser(v: Value, c: Checks): (r: Option<SessionUser>)
    ensures r.Some? <==>
              && v.Obj?
              && "id" in v.fields && v.fields["id"].Num?
              && "email" in v.fields && v.fields["email"].Str? && c.isEmail(v.fields["email"].s)
              && OptionalString(v.fields, "name") && OptionalString(v.fields, "lastName")
              && "role" in v.fields && v.fields["role"].Str?
    ensures r.Some? ==>
              && Get(v, "id") == Some(Num(r.value.id))
              && Get(v, "email") == Some(Str(r.value.email)) && c.isEmail(r.value.email)
              && Get(v, "role") == Some(Str(r.value.role))
    ensures r.Some? ==>
              && (r.value.name.Some? <==> "name" in v.fields && v.fields["name"].Str?)
              && (r.value.name.Some? ==> v.fields["name"] == Str(r.value.name.value))
              && (r.value.lastName.Some? <==> "lastName" in v.fields && v.fields["lastName"].Str?)
              && (r.value.lastName.Some? ==> v.fields["lastName"] == Str(r.value.lastName.value))
  {
    match v
    case Obj(f) =>
      if && "id" in f && f["id"].Num?
         && "email" in f && f["email"].Str? && c.isEmail(f["email"].s)
         && OptionalString(f, "name") && OptionalString(f, "lastName")
         && "role" in f && f["role"].Str?
      then Some(SessionUser(f["id"].n, f["email"].s, OptionalStringValue(f, "name"),
                            OptionalStringValue(f, "lastName"), f["role"].s))
      else None
    case _ => None
  }

  const SessionUserKeys: set<string> := {"id", "email", "name", "lastName", "role"}

  /** Keys outside the schema are dropped: adding or changing one never
      changes the outcome. */
  lemma SessionUserIgnoresOtherKeys(f: map<string, Value>, k: string, x: Value, c: Checks)
    requires k !in SessionUserKeys
    ensures ParseSessionUser(Obj(f[k := x]), c) == ParseSessionUser(Obj(f), c)
  {
    var g := f[k := x];
    assert forall key :: key in SessionUserKeys ==> (key in g <==> key in f) && (key in f ==> g[key] == f[key]);
    assert OptionalStringValue(g, "name") == OptionalStringValue(f, "name");
    assert OptionalStringValue(g, "lastName") == OptionalStringValue(f, "lastName");
  }

  function OptionalField(key: string, o: Option<string>): (m: map<string, Value>)
    ensures m.Keys == if o.Some? then {key} else {}
    ensures o.Some? ==> m[key] == Str(o.value)
  {
    if o.Some? then map[key := Str(o.value)] else map[]
  }

  /** The object `JSON.stringify` is given for a session user: absent optional
      fields have no key. */
  function SessionUserValue(u: SessionUser): Value {
    Obj(map["id" := Num(u.id), "email" := Str(u.email), "role" := Str(u.role)]
        + OptionalField("name", u.name) + OptionalField("lastName", u.lastName))
  }

  /** A session user with a well-formed email survives the trip to its object
      and back through the schema. */
  lemma SessionUserRoundTrip(u: SessionUser, c: Checks)
    requires c.isEmail(u.email)
    ensures ParseSessionUser(SessionUserValue(u), c) == Some(u)
  {
    var f := SessionUserValue(u).fields;
    assert f["id"] == Num(u.id) && f["email"] == Str(u.email) && f["role"] == Str(u.role);
    assert OptionalStringValue(f, "name") == u.name;
    assert OptionalStringValue(f, "lastName") == u.lastName;
  }

  // -------------------------------------------------------------- LoginResponse

  datatype LoginUserInfo = LoginUserInfo(id: real, email: string, role: string)

  datatype RawLoginResponse = RawLoginResponse(
    access_token: string, refresh_token: string, token_type: string,
    expires_in: real, user: LoginUserInfo)

  /** The `user` object of the login response: a numeric id, an email and a
      role string; other keys are dropped. */
  function ParseLoginUserInfo(v: Value, c: Checks): (r: Option<LoginUserInfo>)
    ensures r.Some? <==>
              && v.Obj?
              && "id" in v.fields && v.fields["id"].Num?
              && "email" in v.fields && v.fields["email"].Str? && c.isEmail(v.fields["email"].s)
              && "role" in v.fields && v.fields["role"].Str?
    ensures r.Some? ==>
              && v.fields["id"] == Num(r.value.id)
              && v.fields["email"] == Str(r.value.email)
              && v.fields["role"] == Str(r.value.role)
  {
    match v
    case Obj(f) =>
      if && "id" in f && f["id"].Num?
         && "email" in f && f["email"].Str? && c.isEmail(f["email"].s)
         && "role" in f && f["role"].Str?
      then Some(LoginUserInfo(f["id"].n, f["email"].s, f["role"].s))
      else None
    case _ => None
  }

  /** `loginResponseSchema.parse`: the four token fields and the user object
      must all be present with the right types. */
  function ParseLoginResponse(v: Value, c: Checks): (r: Option<RawLoginResponse>)
    ensures r.Some? <==>
              && v.Obj?
              && "access_token" in v.fields && v.fields["access_token"].Str?
              && "refresh_token" in v.fields && v.fields["refresh_token"].Str?
              && "token_type" in v.fields && v.fields["token_type"].Str?
              && "expires_in" in v.fields && v.fields["expires_in"].Num?
              && "user" in v.fields && ParseLoginUserInfo(v.fields["user"], c).Some?
    ensures r.Some? ==> c.isEmail(r.value.user.email)
    ensures r.Some? ==>
              && Get(v, "access_token") == Some(Str(r.value.access_token))
              && Get(v, "refresh_token") == Some(Str(r.value.refresh_token))
              && Get(v, "token_type") == Some(Str(r.value.token_type))
              && Get(v, "expires_in") == Some(Num(r.value.expires_in))
    ensures r.Some? ==>
              && Get(v, "user") == Some(v.fields["user"])
              && Get(v.fields["user"], "id") == Some(Num(r.value.user.id))
              && Get(v.fields["user"], "email") == Some(Str(r.value.user.email))
              && Get(v.fields["user"], "role") == Some(Str(r.value.user.role))
  {
    match v
    case Obj(f) =>
      if && "access_token" in f && f["access_token"].Str?
         && "refresh_token" in f && f["refresh_token"].Str?
         && "token_type" in f && f["token_type"].Str?
         && "expires_in" in f && f["expires_in"].Num?
         && "user" in f && ParseLoginUserInfo(f["user"], c).Some?
      then Some(RawLoginResponse(f["access_token"].s, f["refresh_token"].s, f["token_type"].s,
                                 f["expires_in"].n, ParseLoginUserInfo(f["user"], c).value))
      else None
    case _ => None
  }

  function LoginResponseValue(r: RawLoginResponse): Value {
    Obj(map["access_token" := Str(r.access_token), "refresh_token" := Str(r.refresh_token),
            "token_type" := Str(r.token_type), "expires_in" := Num(r.expires_in),
            "user" := Obj(map["id" := Num(r.user.id), "email" := Str(r.user.email),
                              "role" := Str(r.user.role)])])
  }

  /** Every well-formed login response is accepted, unchanged. */
  lemma LoginResponseRoundTrip(r: RawLoginResponse, c: Checks)
    requires c.isEmail(r.user.email)
    ensures ParseLoginResponse(LoginResponseValue(r), c) == Some(r)
  {
    var f := LoginResponseValue(r).fields;
    assert f["user"] == Obj(map["id" := Num(r.user.id), "email" := Str(r.user.email),
                                "role" := Str(r.user.role)]);
    assert ParseLoginUserInfo(f["user"], c) == Some(r.user);
  }

  // ---------------------------------------------------------- request bodies

  function LoginValue(l: Login): Value {
    Obj(map["email" := Str(l.email), "password" := Str(l.password)])
  }

  function NullableField<T>(key: string, n: Nullable<T>, conv: T -> Value): (m: map<string, Value>)
    ensures m.Keys == if n.Omitted? then {} else {key}
  {
    match n
    case Omitted => map[]
    case NullValue => map[key := Null]
    case Given(x) => map[key := conv(x)]
  }

  /** The object a UserCreate is sent as; missing optional fields have no key. */
  function UserCreateValue(u: UserCreate): Value {
    Obj(map["name" := Str(u.name), "email" := Str(u.email), "password" := Str(u.password)]
        + OptionalField("lastName", u.lastName)
        + NullableField("phone", u.phone, (s: string) => Str(s))
        + (if u.idRole.Some? then map["idRole" := Num(u.idRole.value)] else map[])
        + NullableField("idFuelStation", u.idFuelStation, (x: real) => Num(x)))
  }
}
