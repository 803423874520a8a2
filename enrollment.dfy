/**
 * The many-to-many Student/Course association kept in memory: each side
 * holds a set of the other, and the helper methods on either class update
 * both sets. Hash-set membership is modelled by object identity, which
 * agrees with the classes' id-based equality while persisted ids are
 * distinct (see the Equals lemmas).
 */
module Enrollment {
  import opened Wrappers

  /** The hash code every Student shares (the class object's hash code; its value is the JVM's choice). */
  const StudentClassHash: int := 0
  /** The hash code every Course shares. */
  const CourseClassHash: int := 1

  class Student {
    var id: Option<int>
    var name: string
    var email: string
    var courses: set<Course>

    /** A student enrolled in nothing. */
    constructor (name: string, email: string)
      ensures this.name == name && this.email == email && id.None?
      ensures courses == {}
    {
      this.id := None;
      this.name := name;
      this.email := email;
      this.courses := {};
    }

    /** Add the course to this student's set and this student to the course's set. */
    method EnrollInCourse(course: Course)
      modifies this`courses, course`students
      ensures courses == old(courses) + {course}
      ensures course.students == old(course.students) + {this}
    {
      courses := courses + {course};
      course.students := course.students + {this};
    }

    /** Remove the course from this student's set and this student from the course's set. */
    method DropCourse(course: Course)
      modifies this`courses, course`students
      ensures courses == old(courses) - {course}
      ensures course.students == old(course.students) - {this}
    {
      courses := courses - {course};
      course.students := course.students - {this};
    }

    /** Same reference, or another Student with the same non-null id. */
    function Equals(o: object?): (b: bool)
      reads this, o
      ensures this == o ==> b
      ensures o == null || !(o is Student) ==> !b
      ensures id.None? ==> (b <==> this == o)
      ensures o is Student && this != o ==> (b <==> id.Some? && id == (o as Student).id)
    {
      this == o || (o is Student && id.Some? && id == (o as Student).id)
    }

    /** One hash for every Student, whatever its state. */
    function HashCode(): (h: int)
      ensures h == StudentClassHash
    {
      StudentClassHash
    }
  }

  class Course {
    var id: Option<int>
    var name: string
    var credits: Option<int>
    var instructor: string
    var students: set<Student>

    /** A course with no students. */
    constructor (name: string, credits: Option<int>, instructor: string)
      ensures this.name == name && this.credits == credits && this.instructor == instructor
      ensures id.None? && students == {}
    {
      this.id := None;
      this.name := name;
      this.credits := credits;
      this.instructor := instructor;
      this.students := {};
    }

    /** Add the student to this course's set and this course to the student's set. */
    method AddStudent(student: Student)
      modifies this`students, student`courses
      ensures students == old(students) + {student}
      ensures student.courses == old(student.courses) + {this}
    {
      students := students + {student};
      student.courses := student.courses + {this};
    }

    /** Remove the student from this course's set and this course from the student's set. */
    method RemoveStudent(student: Student)
      modifies this`students, student`courses
      ensures students == old(students) - {student}
      ensures student.courses == old(student.courses) - {this}
    {
      students := students - {student};
      student.courses := student.courses - {this};
    }

    /** Same reference, or another Course with the same non-null id. */
    function Equals(o: object?): (b: bool)
      reads this, o
      ensures this == o ==> b
      ensures o == null || !(o is Course) ==> !b
      ensures id.None? ==> (b <==> this == o)
      ensures o is Course && this != o ==> (b <==> id.Some? && id == (o as Course).id)
    {
      this == o || (o is Course && id.Some? && id == (o as Course).id)
    }

    /** One hash for every Course, whatever its state. */
    function HashCode(): (h: int)
      ensures h == CourseClassHash
    {
      CourseClassHash
    }
  }

  // ---------------------------------------------------------------------------
  // equals and hashCode

  /** Student equality: reflexive, false for null, and true for equal non-null ids. */
  lemma StudentEqualsCases(s: Student, t: Student)
    ensures s.Equals(s)
    ensures !s.Equals(null)
    ensures s.id.Some? && s.id == t.id ==> s.Equals(t)
    ensures s != t && (s.id.None? || s.id != t.id) ==> !s.Equals(t)
  {
  }

  /** A Student whose id is null equals only itself. */
  lemma StudentNullIdEqualsOnlyItself(s: Student, o: object?)
    requires s.id.None?
    ensures s.Equals(o) <==> s == o
  {
  }

  /** A Student never equals an object of another class, a Course included. */
  lemma StudentEqualsOnlyStudents(s: Student, o: object?)
    requires !(o is Student)
    ensures !s.Equals(o)
  {
  }

  /** Student equality is symmetric and transitive. */
  lemma StudentEqualsIsEquivalence(s: Student, t: Student, u: Student)
    ensures s.Equals(t) == t.Equals(s)
    ensures s.Equals(t) && t.Equals(u) ==> s.Equals(u)
  {
  }

  /** Equal students have equal hash codes; in fact every student has the same one. */
  lemma StudentHashConsistent(s: Student, t: Student)
    ensures s.HashCode() == t.HashCode() == StudentClassHash
    ensures s.Equals(t) ==> s.HashCode() == t.HashCode()
  {
  }

  /** While persisted ids are distinct, student equality is reference identity. */
  lemma StudentEqualsIsIdentity(s: Student, t: Student)
    requires s != t && s.id.Some? ==> s.id != t.id
    ensures s.Equals(t) <==> s == t
  {
  }

  /** Course equality: reflexive, false for null, and true for equal non-null ids. */
  lemma CourseEqualsCases(c: Course, d: Course)
    ensures c.Equals(c)
    ensures !c.Equals(null)
    ensures c.id.Some? && c.id == d.id ==> c.Equals(d)
    ensures c != d && (c.id.None? || c.id != d.id) ==> !c.Equals(d)
  {
  }

  /** A Course never equals an object of another class, a Student included. */
  lemma CourseEqualsOnlyCourses(c: Course, o: object?)
    requires !(o is Course)
    ensures !c.Equals(o)
  {
  }

  /** Course equality is symmetric and transitive. */
  lemma CourseEqualsIsEquivalence(c: Course, d: Course, e: Course)
    ensures c.Equals(d) == d.Equals(c)
    ensures c.Equals(d) && d.Equals(e) ==> c.Equals(e)
  {
  }

  /** Every course has the same hash code. */
  lemma CourseHashConsistent(c: Course, d: Course)
    ensures c.HashCode() == d.HashCode() == CourseClassHash
  {
  }

  /** While persisted ids are distinct, course equality is reference identity. */
  lemma CourseEqualsIsIdentity(c: Course, d: Course)
    requires c != d && c.id.Some? ==> c.id != d.id
    ensures c.Equals(d) <==> c == d
  {
  }

  // ---------------------------------------------------------------------------
  // Bidirectional consistency

  /** A student is in a course's set exactly when the course is in the student's set. */
  ghost predicate Consistent(students: set<Student>, courses: set<Course>)
    reads students, courses
  {
    forall s, c :: s in students && c in courses ==> (s in c.students <==> c in s.courses)
  }

  /** Enrolling keeps the two sides consistent. */
  method EnrollKeepsConsistent(students: set<Student>, courses: set<Course>, s: Student, c: Course)
    requires Consistent(students, courses)
    modifies s`courses, c`students
    ensures Consistent(students, courses)
  {
    s.EnrollInCourse(c);
  }

  /** Dropping keeps the two sides consistent. */
  method DropKeepsConsistent(students: set<Student>, courses: set<Course>, s: Student, c: Course)
    requires Consistent(students, courses)
    modifies s`courses, c`students
    ensures Consistent(students, courses)
  {
    s.DropCourse(c);
  }

  /** Adding a student from the course's side keeps the two sides consistent. */
  method AddStudentKeepsConsistent(students: set<Student>, courses: set<Course>, s: Student, c: Course)
    requires Consistent(students, courses)
    modifies s`courses, c`students
    ensures Consistent(students, courses)
  {
    c.AddStudent(s);
  }

  /** Removing a student from the course's side keeps the two sides consistent. */
  method RemoveStudentKeepsConsistent(students: set<Student>, courses: set<Course>, s: Student, c: Course)
    requires Consistent(students, courses)
    modifies s`courses, c`students
    ensures Consistent(students, courses)
  {
    c.RemoveStudent(s);
  }

  /** Enrolling twice leaves both sets as enrolling once does. */
  method EnrollTwice(s: Student, c: Course)
    modifies s`courses, c`students
    ensures s.courses == old(s.courses) + {c} && c.students == old(c.students) + {s}
  {
    s.EnrollInCourse(c);
    s.EnrollInCourse(c);
  }

  /** Adding a student twice leaves both sets as adding once does. */
  method AddStudentTwice(s: Student, c: Course)
    modifies s`courses, c`students
    ensures s.courses == old(s.courses) + {c} && c.students == old(c.students) + {s}
  {
    c.AddStudent(s);
    c.AddStudent(s);
  }

  /** Dropping a course the student is not enrolled in changes neither set. */
  method DropNotEnrolled(s: Student, c: Course)
    requires c !in s.courses && s !in c.students
    modifies s`courses, c`students
    ensures s.courses == old(s.courses) && c.students == old(c.students)
  {
    s.DropCourse(c);
  }

  /** Enrolling in one course leaves another course's students unchanged. */
  method EnrollLeavesOtherCourses(s: Student, c: Course, other: Course)
    requires other != c
    modifies s`courses, c`students
    ensures other.students == old(other.students)
    ensures c in s.courses && s in c.students
  {
    s.EnrollInCourse(c);
  }

  /** A student enrolled in two new courses through the helper. */
  method EnrollStudentInCourses() returns (student: Student, math: Course, physics: Course)
    ensures student.courses == {math, physics}
    ensures math.students == {student} && physics.students == {student}
    ensures Consistent({student}, {math, physics})
  {
    student := new Student("John Doe", "john@university.edu");
    math := new Course("Mathematics", Some(3), "Dr. Smith");
    physics := new Course("Physics", Some(4), "Dr. Johnson");
    student.EnrollInCourse(math);
    student.EnrollInCourse(physics);
  }
}
