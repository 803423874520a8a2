# Tenant provisioning and entity association helpers, modelled in Dafny

This project models two small pieces of the RealityGen code base.

1. **Tenant provisioning.** `TenantProvisioningService` derives a schema name from a tenant
   identifier: `"tenant_"` followed by the identifier lower-cased, with every character
   outside `[a-z0-9_]` replaced by `_`. It builds a `Tenant` record (identifier, display
   name, schema name, `active = true`) and hands the schema to the migration service. A
   migration failure is rethrown as a provisioning error that names the tenant.
   `updateTenantSchema` and `rollbackTenantSchema` only delegate to that service.
2. **In-memory association helpers of the relationship entities.**
   - `Author.addBook` / `removeBook` change the author's book list and the book's `author`
     back-pointer.
   - `Student.enrollInCourse` / `dropCourse` and `Course.addStudent` / `removeStudent`
     change the two hash sets of a student and a course together.
   - `equals` of `Student` and `Course` is id-based, and `hashCode` is one class-wide constant.

Modules:
- `Wrappers`: the `Option`, `Outcome` and `Result` types that stand for nullable values and
  thrown exceptions.
- `SchemaNaming`: the schema-name derivation. It is a pure recursive function, with lemmas
  for prefix, length, alphabet, idempotence of the replacement step, the exact collision
  condition, a concrete collision and the column-length limit.
- `TenantProvisioning`: the `Tenant` record, the abstract migration and rollback calls, and
  provisioning, update and rollback.
- `ListRemoval`: `List.remove(Object)` for elements compared by reference. It removes the
  first occurrence only.
- `AuthorBooks`: classes `Category`, `Book` and `Author`. The author's list is a `seq<Book>`
  field and the back-pointer is an `Author?` field. Scenario methods show where the
  two-sided invariant holds and where it breaks.
- `Enrollment`: classes `Student` and `Course`, each with a `set` field of the other.
  Includes their `Equals` / `HashCode` and the consistency invariant.

Two facts about the derivation that are easy to miss:
- It is not injective: `"a-b"` and `"a_b"` both give `tenant_a_b`, and `"Ab"` and `"aB"`
  give the same name. `SchemaNaming.SchemaNameCollides`, `SchemaNaming.CaseInsensitiveExample`
  and `SchemaNaming.SameSchemaNameIff` state this.
- `"!!!"` gives `tenant____`: the prefix's own `_` plus one `_` per input character
  (`SchemaNaming.ExampleAllReplaced`).

Modelling decisions:
- Hash-set membership on `Student` and `Course` is modelled by object identity. This agrees
  with the id-based `equals` whenever persisted ids are distinct. `StudentEqualsIsIdentity`
  and `CourseEqualsIsIdentity` prove that agreement.
- The migration library is not modelled. The class `MigrationService` stands for the
  migration service: `MigrateSchema` and `RollbackLastChange` choose their outcome
  nondeterministically, carry the service's message on failure, and append each call (its
  arguments and outcome) to a ghost log. Provisioning, update and rollback state what they
  delegated by that log.

## Model

| member | source | states |
|---|---|---|
| `SchemaNaming.Sanitize` | src/main/java/com/homefinder/realitygen/service/TenantProvisioningService.java:32 | the lower-case-and-replace step yields exactly one output character per input character, namely NormalizeChar of it |
| `SchemaNaming.NormalizeChar` | src/main/java/com/homefinder/realitygen/service/TenantProvisioningService.java:32 | every normalised character is in [a-z0-9_], and characters already in [a-z0-9_] are kept |
| `SchemaNaming.ToLower` | src/main/java/com/homefinder/realitygen/service/TenantProvisioningService.java:32 | `A`-`Z` map to the letter 32 code points higher (lower case); every other character is unchanged |
| `SchemaNaming.NormalizeCharCases` | src/main/java/com/homefinder/realitygen/service/TenantProvisioningService.java:32 | upper-case letters are lowered, `[a-z0-9_]` is kept, anything else becomes `_` |
| `SchemaNaming.NormalizeCharFixed` | src/main/java/com/homefinder/realitygen/service/TenantProvisioningService.java:32 | a character is left unchanged exactly when it is in [a-z0-9_] |
| `SchemaNaming.SchemaName` | src/main/java/com/homefinder/realitygen/service/TenantProvisioningService.java:32 | the schema name starts with `tenant_`, has length 7 + \|tenantId\|, and after the prefix is the identifier's lower-case-and-replace image |
| `SchemaNaming.SchemaNameShape` | src/main/java/com/homefinder/realitygen/service/TenantProvisioningService.java:32 | character 7+i of the schema name is the normalised i-th identifier character, and every character after the prefix is in [a-z0-9_] |
| `SchemaNaming.SanitizeIdempotent` | src/main/java/com/homefinder/realitygen/service/TenantProvisioningService.java:32 | applying the replacement step to its own output leaves it unchanged |
| `SchemaNaming.SanitizeFixedIffSafe` | src/main/java/com/homefinder/realitygen/service/TenantProvisioningService.java:32 | the replacement step leaves a string unchanged if and only if every character is already in [a-z0-9_] |
| `SchemaNaming.SameSchemaNameIff` | src/main/java/com/homefinder/realitygen/service/TenantProvisioningService.java:32 | two identifiers share a schema name if and only if they have equal length and agree character by character after normalisation |
| `SchemaNaming.SchemaNameCollides` | src/main/java/com/homefinder/realitygen/service/TenantProvisioningService.java:32 | the derivation is not injective: distinct `a-b` and `a_b` both give `tenant_a_b` |
| `SchemaNaming.SchemaNameOfSanitized` | src/main/java/com/homefinder/realitygen/service/TenantProvisioningService.java:32 | an identifier and its sanitised form give the same schema name |
| `SchemaNaming.CaseInsensitive` | src/main/java/com/homefinder/realitygen/service/TenantProvisioningService.java:32 | identifiers that agree after lower-casing each character share a schema name |
| `SchemaNaming.CaseInsensitiveExample` | src/main/java/com/homefinder/realitygen/service/TenantProvisioningService.java:32 | the distinct identifiers `Ab` and `aB` share a schema name |
| `SchemaNaming.SchemaNameNotIdempotent` | src/main/java/com/homefinder/realitygen/service/TenantProvisioningService.java:32 | the full derivation applied twice differs from applying it once, because the prefix is added again |
| `SchemaNaming.SchemaNameFitsColumn` | src/main/java/com/homefinder/realitygen/entity/Tenant.java:29-30 | the derived name fits the 50-character schemaName column if and only if the identifier has at most 43 characters |
| `SchemaNaming.ExampleAbc123` | src/main/java/com/homefinder/realitygen/service/TenantProvisioningService.java:31-32 | `abc123` gives `tenant_abc123` |
| `SchemaNaming.ExampleMixed` | src/main/java/com/homefinder/realitygen/service/TenantProvisioningService.java:32 | `ABC-123!` gives `tenant_abc_123_` |
| `SchemaNaming.ExampleAllReplaced` | src/main/java/com/homefinder/realitygen/service/TenantProvisioningService.java:32 | `!!!` gives `tenant____`, a non-empty name made only of safe characters |
| `TenantProvisioning.MigrationService.MigrateSchema` | src/main/java/com/homefinder/realitygen/config/MultiTenantLiquibaseService.java:41-77 | the migration either succeeds or fails; a failure carries "Liquibase migration failed for tenant: " + tenantId; the call is recorded with its arguments and outcome |
| `TenantProvisioning.MigrationService.RollbackLastChange` | src/main/java/com/homefinder/realitygen/config/MultiTenantLiquibaseService.java:92-119 | the rollback either succeeds or fails; a failure carries "Liquibase rollback failed for tenant: " + tenantId; the call is recorded with its arguments and outcome |
| `TenantProvisioning.ProvisionNewTenant` | src/main/java/com/homefinder/realitygen/service/TenantProvisioningService.java:28-56 | exactly one migration is run, for the tenantId and its derived schema name (line 42); a record is returned exactly when that migration succeeds, and it has the given tenantId and tenantName, the derived schema name, active = true, and null id and description; when it fails no record is returned and the error is "Failed to provision tenant: " + tenantId wrapping that migration's failure |
| `TenantProvisioning.UpdateTenantSchema` | src/main/java/com/homefinder/realitygen/service/TenantProvisioningService.java:61-64 | runs exactly one migration with its own tenantId and schema name and returns that migration's outcome unchanged, so a failure propagates unwrapped with the migration service's message |
| `TenantProvisioning.RollbackTenantSchema` | src/main/java/com/homefinder/realitygen/service/TenantProvisioningService.java:69-72 | runs exactly one rollback with its own tenantId and schema name and returns that rollback's outcome unchanged, so a failure propagates unwrapped with the rollback message |
| `TenantProvisioning.ProvisionedSchemaIsSafe` | src/main/java/com/homefinder/realitygen/service/TenantProvisioningService.java:32-50 | a provisioned tenant's schema name has the `tenant_` prefix and a safe suffix, and fits its column exactly when the identifier has at most 43 characters |
| `TenantProvisioning.ColumnLengthMismatch` | src/main/java/com/homefinder/realitygen/entity/Tenant.java:23-30 | some identifier that fits the 50-character tenantId column yields a schema name longer than the 50-character schemaName column |
| `ListRemoval.FirstIndex` | src/main/java/com/homefinder/realitygen/entity/relationships/Author.java:103 | the position found holds the element and no earlier position does |
| `ListRemoval.RemoveFirst` | src/main/java/com/homefinder/realitygen/entity/relationships/Author.java:103 | removal leaves the list unchanged when the element is absent, otherwise shortens it by one, and removes exactly one copy (multiset difference) |
| `ListRemoval.RemoveFirstAt` | src/main/java/com/homefinder/realitygen/entity/relationships/Author.java:103 | only the first occurrence is cut out; the elements before and after it keep their order |
| `ListRemoval.RemoveAfterAppend` | src/main/java/com/homefinder/realitygen/entity/relationships/Author.java:97-105 | removing an element just appended, which was absent before, gives back the original list |
| `ListRemoval.RemoveFirstMembers` | src/main/java/com/homefinder/realitygen/entity/relationships/Author.java:103 | removal introduces no element and keeps every element other than the removed one |
| `AuthorBooks.Category.constructor` | src/main/java/com/homefinder/realitygen/entity/relationships/Category.java:52-55 | a category with the given name and description and no id |
| `AuthorBooks.Book.constructor` | src/main/java/com/homefinder/realitygen/entity/relationships/Book.java:127-130 | a new book has the given title and isbn, and null author, category and id |
| `AuthorBooks.Book.WithAuthor` | src/main/java/com/homefinder/realitygen/entity/relationships/Book.java:132-136 | the 3-argument constructor sets the author field but leaves that author's book list unchanged |
| `AuthorBooks.Book.SetAuthor` | src/main/java/com/homefinder/realitygen/entity/relationships/Book.java:170-172 | only the author field changes; title, isbn and category keep their values |
| `AuthorBooks.Book.SetCategory` | src/main/java/com/homefinder/realitygen/entity/relationships/Book.java:178-180 | only the category field changes; title, isbn and author keep their values |
| `AuthorBooks.SetAuthorThenCategory` | src/main/java/com/homefinder/realitygen/entity/relationships/Book.java:166-180 | after both setters, each getter returns the value last stored by its own setter |
| `AuthorBooks.Author.constructor` | src/main/java/com/homefinder/realitygen/entity/relationships/Author.java:87 | a new author has an empty book list (113-116 set name and email) |
| `AuthorBooks.Author.AddBook` | src/main/java/com/homefinder/realitygen/entity/relationships/Author.java:97-100 | the book is appended at the end, duplicates included, and points at this author; only this list and that book's author field change; the back-pointer invariant holds afterwards if it held before; the list stays duplicate-free exactly when the book was absent |
| `AuthorBooks.Author.RemoveBook` | src/main/java/com/homefinder/realitygen/entity/relationships/Author.java:102-105 | the list loses its first occurrence of the book, in order, or is unchanged if absent; the book's author becomes null unconditionally; the back-pointer invariant is kept when the book occurred at most once |
| `ListRemoval.RemoveOnlyOccurrence` | src/main/java/com/homefinder/realitygen/entity/relationships/Author.java:103 | an element that occurred at most once no longer occurs after removal |
| `AuthorBooks.AddThenRemove` | src/main/java/com/homefinder/realitygen/entity/relationships/Author.java:97-105 | addBook then removeBook of a book not in the list restores the list and leaves the book without an author |
| `AuthorBooks.CreateAuthorWithBooks` | src/main/java/com/homefinder/realitygen/entity/relationships/RelationshipUsageExamples.java:33-45 | two books added through the helper are in list order, point at the author, and both sides agree |
| `AuthorBooks.DuplicateBreaksOwnership` | src/main/java/com/homefinder/realitygen/entity/relationships/Author.java:97-105 | after adding a book twice and removing it once, the book is still listed but its author is null |
| `AuthorBooks.ForeignRemoveBreaksConsistency` | src/main/java/com/homefinder/realitygen/entity/relationships/Author.java:102-105 | removeBook through an author that does not hold the book clears the book's author while its real owner still lists it |
| `AuthorBooks.ReAddBreaksConsistency` | src/main/java/com/homefinder/realitygen/entity/relationships/Author.java:97-100 | adding a book to a second author leaves it in the first author's list, so the two sides disagree |
| `AuthorBooks.ConstructorBreaksConsistency` | src/main/java/com/homefinder/realitygen/entity/relationships/Book.java:132-136 | a book built with an author points at it while the author's list stays empty |
| `AuthorBooks.AddFreeBookKeepsConsistent` | src/main/java/com/homefinder/realitygen/entity/relationships/Author.java:97-100 | adding a book that no other author lists keeps "book in author's list iff book points at author" for every set of authors and books |
| `AuthorBooks.RemoveHeldBookKeepsConsistent` | src/main/java/com/homefinder/realitygen/entity/relationships/Author.java:102-105 | removing a book that this author lists at most once and no other author lists keeps the two sides consistent for every set of authors and books |
| `Enrollment.Student.constructor` | src/main/java/com/homefinder/realitygen/entity/relationships/Student.java:129 | a new student has no courses (162-165 set name and email) |
| `Enrollment.Student.EnrollInCourse` | src/main/java/com/homefinder/realitygen/entity/relationships/Student.java:146-149 | the course joins this student's set and the student joins the course's set; no other set changes |
| `Enrollment.Student.DropCourse` | src/main/java/com/homefinder/realitygen/entity/relationships/Student.java:151-154 | the course leaves this student's set and the student leaves the course's set; no other set changes |
| `Enrollment.Course.constructor` | src/main/java/com/homefinder/realitygen/entity/relationships/Course.java:69 | a new course has no students (95-99 set name, credits, instructor) |
| `Enrollment.Course.AddStudent` | src/main/java/com/homefinder/realitygen/entity/relationships/Course.java:79-82 | the student joins this course's set and the course joins the student's set, the same post-state as Student.EnrollInCourse |
| `Enrollment.Course.RemoveStudent` | src/main/java/com/homefinder/realitygen/entity/relationships/Course.java:84-87 | the student leaves this course's set and the course leaves the student's set; no other set changes |
| `Enrollment.Student.Equals` | src/main/java/com/homefinder/realitygen/entity/relationships/Student.java:208-213 | a student equals itself; never null or any object that is not a Student; with a null id only itself; another student exactly when both share a non-null id |
| `Enrollment.Student.HashCode` | src/main/java/com/homefinder/realitygen/entity/relationships/Student.java:216-218 | every student has the one class-wide hash code, whatever its fields |
| `Enrollment.StudentEqualsCases` | src/main/java/com/homefinder/realitygen/entity/relationships/Student.java:208-213 | equals is true for the same reference and for equal non-null ids, false for null and false for distinct students without a shared non-null id |
| `Enrollment.StudentNullIdEqualsOnlyItself` | src/main/java/com/homefinder/realitygen/entity/relationships/Student.java:208-213 | a student with a null id equals exactly itself |
| `Enrollment.StudentEqualsOnlyStudents` | src/main/java/com/homefinder/realitygen/entity/relationships/Student.java:210 | a student never equals null or any object that is not a Student, a Course included |
| `Enrollment.StudentEqualsIsEquivalence` | src/main/java/com/homefinder/realitygen/entity/relationships/Student.java:208-213 | student equality is symmetric and transitive |
| `Enrollment.StudentHashConsistent` | src/main/java/com/homefinder/realitygen/entity/relationships/Student.java:216-218 | every student has the same hash code, so equal students hash alike (for objects whose runtime class is exactly Student) |
| `Enrollment.StudentEqualsIsIdentity` | src/main/java/com/homefinder/realitygen/entity/relationships/Student.java:208-213 | while persisted ids are distinct, student equality is reference identity |
| `Enrollment.Course.Equals` | src/main/java/com/homefinder/realitygen/entity/relationships/Course.java:150-155 | a course equals itself; never null or any object that is not a Course; with a null id only itself; another course exactly when both share a non-null id |
| `Enrollment.Course.HashCode` | src/main/java/com/homefinder/realitygen/entity/relationships/Course.java:158-160 | every course has the one class-wide hash code, whatever its fields |
| `Enrollment.CourseEqualsCases` | src/main/java/com/homefinder/realitygen/entity/relationships/Course.java:150-155 | equals is true for the same reference and for equal non-null ids, false for null and otherwise |
| `Enrollment.CourseEqualsOnlyCourses` | src/main/java/com/homefinder/realitygen/entity/relationships/Course.java:152 | a course never equals null or any object that is not a Course, a Student included |
| `Enrollment.CourseEqualsIsEquivalence` | src/main/java/com/homefinder/realitygen/entity/relationships/Course.java:150-155 | course equality is symmetric and transitive |
| `Enrollment.CourseHashConsistent` | src/main/java/com/homefinder/realitygen/entity/relationships/Course.java:158-160 | every course has the same hash code |
| `Enrollment.CourseEqualsIsIdentity` | src/main/java/com/homefinder/realitygen/entity/relationships/Course.java:150-155 | while persisted ids are distinct, course equality is reference identity |
| `Enrollment.EnrollKeepsConsistent` | src/main/java/com/homefinder/realitygen/entity/relationships/Student.java:144-149 | enrolling keeps "student in course's set iff course in student's set" for every set of students and courses |
| `Enrollment.DropKeepsConsistent` | src/main/java/com/homefinder/realitygen/entity/relationships/Student.java:151-154 | dropping keeps the two-sided consistency |
| `Enrollment.AddStudentKeepsConsistent` | src/main/java/com/homefinder/realitygen/entity/relationships/Course.java:79-82 | adding from the course side keeps the two-sided consistency |
| `Enrollment.RemoveStudentKeepsConsistent` | src/main/java/com/homefinder/realitygen/entity/relationships/Course.java:84-87 | removing from the course side keeps the two-sided consistency |
| `Enrollment.EnrollTwice` | src/main/java/com/homefinder/realitygen/entity/relationships/Student.java:146-149 | enrolling twice leaves both sets as enrolling once does |
| `Enrollment.AddStudentTwice` | src/main/java/com/homefinder/realitygen/entity/relationships/Course.java:79-82 | addStudent is idempotent on both sets |
| `Enrollment.DropNotEnrolled` | src/main/java/com/homefinder/realitygen/entity/relationships/Student.java:151-154 | dropping a course the student is not in changes neither set |
| `Enrollment.EnrollLeavesOtherCourses` | src/main/java/com/homefinder/realitygen/entity/relationships/Student.java:146-149 | enrolling in one course leaves every other course's students unchanged |
| `Enrollment.EnrollStudentInCourses` | src/main/java/com/homefinder/realitygen/entity/relationships/RelationshipUsageExamples.java:117-128 | a student enrolled in two new courses lists both, each course lists the student, and both sides agree |

## Left out

- Database I/O: connections, `CREATE SCHEMA`, `SET search_path` and the Liquibase update and rollback. The migration and rollback calls are abstract and may succeed or fail. The change-set ledger belongs to Liquibase and is not part of this model.
- Logging and the commented-out `tenantRepository.save`: they have no effect on the returned result.
- The HTTP controller, and JPA persistence, cascade, orphan removal and fetch behaviour: these belong to the framework.
- Database column constraints (`unique`, `length`, `nullable`) are not enforced by the code. Only the two 50-character limits appear, as the constants `TenantProvisioning.TenantIdColumnLength` and `SchemaNaming.SchemaNameColumnLength` that the column-length lemmas use.
- `SchemaNaming.NormalizeChar`: lower-cases only ASCII `A`-`Z`. Java's locale-dependent `toLowerCase` differs for a few inputs: `U+212A` lower-cases to `k`, `U+0130` lower-cases to two characters, and in a Turkish or Azerbaijani locale `I` becomes a dotless `ı`. Supplementary characters are two UTF-16 units in Java but one character here. The model is exact for ASCII input in a locale other than Turkish or Azerbaijani (both apply the dotless-`ı` rule).
- Enrollment membership follows object identity. Two distinct objects with the same non-null id would count as one element of a Java `HashSet`; the model assumes persisted ids are distinct.
- `Enrollment.Student.HashCode` and `Enrollment.Course.HashCode` return fixed constants. In Java the constant is the class object's hash code, which the JVM chooses.
- `Enrollment.StudentHashConsistent`, `Enrollment.CourseHashConsistent`: hold only for objects whose runtime class is exactly `Student` (or `Course`). Neither class is final, so a subclass instance such as a lazy-loading proxy passes the `instanceof` test in `equals` and can equal a plain instance with the same id while `getClass().hashCode()` differs. Subclasses are not modelled.
- The no-argument constructors that JPA uses are not modelled. Field initializers still run in them: `Author()` and `Category()` start with an empty book list, `Student()` with an empty course set and `Course()` with an empty student set, and every other field is null. Only `Book()` leaves every field null.
- `AuthorBooks.Author.AddBook`, `AuthorBooks.Author.RemoveBook`, `Enrollment.Student.EnrollInCourse`, `Enrollment.Student.DropCourse`, `Enrollment.Course.AddStudent`, `Enrollment.Course.RemoveStudent`: take non-null arguments. In Java a null argument is first appended to, removed from or added to the receiver's own collection and then the back-pointer update throws a `NullPointerException`; neither the null argument nor that partial update before the throw is modelled.
- `TenantProvisioning.ProvisionNewTenant`: takes a non-null identifier and a non-null display name. A null `tenantId` throws a `NullPointerException` at `TenantProvisioningService.java:32`, before the `try`, so it is not wrapped as a provisioning error. A null `tenantName` is accepted in Java, stored in the record at line 37 and returned normally; a `string` parameter cannot express it. Neither null path is modelled.
- `TenantProvisioning.UpdateTenantSchema`, `TenantProvisioning.RollbackTenantSchema`: take a non-null identifier. Java accepts a null `tenantId` there (`TenantProvisioningService.java:61-72` and `MultiTenantLiquibaseService.java:41-77` use it only in logging and in the failure message), so the call can return normally; a `string` parameter cannot express it, and that path is not modelled.
- `AuthorBooks.Author.AddBook`, `AuthorBooks.Author.RemoveBook`, `Enrollment.Student.EnrollInCourse`, `Enrollment.Student.DropCourse`, `Enrollment.Course.AddStudent`, `Enrollment.Course.RemoveStudent`, `Enrollment.EnrollLeavesOtherCourses`: the model assumes each collection object belongs to exactly one entity, because `books`, `courses` and `students` are value fields. In Java `setBooks` (`Author.java:150-152`), `setCourses` (`Student.java:199-201`) and `setStudents` (`Course.java:141-143`) can put one list or set object into two entities; the helpers then change that shared object in place and both entities see the change, so the field-level `modifies` frames and "other courses are unchanged" do not hold there. Collection aliasing is not modelled.
- The `setBooks`, `setCourses` and `setStudents` setters and the plain getters and setters of names, emails, ids and so on are not modelled: they are plain field assignments and reads.
- `Category`'s book list is not modelled: Category has no helper methods.
